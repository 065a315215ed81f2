/**
  Properties of the typed-error model that relate several operations: how
  category and context flow through chains of wraps, what the text of an
  error depends on, and how far the cause of an error reaches.
 */
module ErrorsProperties {
  import opened Errors

  /** The error `err` after one generic wrap per message in `msgs`, innermost first. */
  function WrapAll(err: Error, msgs: seq<string>): Error
    decreases |msgs|
  {
    if msgs == [] then err else WrapAll(Wrap(err, msgs[0]), msgs[1..])
  }

  /** `err` under one bare wrap layer per message in `msgs`, innermost first. */
  function WithMessages(err: Error, msgs: seq<string>): Error
    decreases |msgs|
  {
    if msgs == [] then err else WithMessages(WithMessage(err, msgs[0]), msgs[1..])
  }

  /** The chain `e` with every typed layer taken out: only wrap layers, roots and foreign errors remain. */
  function Untyped(e: Error): Error
  {
    match e
    case Typed(_, orig, _) => Untyped(orig)
    case Root(msg) => e
    case WithMessage(inner, msg) => WithMessage(Untyped(inner), msg)
    case Foreign(text) => e
  }

  predicate NoTypedLayer(e: Error)
  {
    match e
    case Typed(_, _, _) => false
    case Root(_) => true
    case WithMessage(inner, _) => NoTypedLayer(inner)
    case Foreign(_) => true
  }

  /**
    The text of an error never shows a category or a context: it is the text of
    the same chain with all typed layers removed.
   */
  lemma {:induction false} RenderIgnoresTypedLayers(e: Error)
    ensures NoTypedLayer(Untyped(e))
    ensures Render(Untyped(e)) == Render(e)
  {
    match e
    case Typed(_, orig, _) => RenderIgnoresTypedLayers(orig);
    case Root(_) =>
    case WithMessage(inner, _) => RenderIgnoresTypedLayers(inner);
    case Foreign(_) =>
  }

  /** Any number of generic wraps keep the category and the context of the error they start from. */
  lemma {:induction false} WrapAllPreservesTypeAndContext(err: Error, msgs: seq<string>)
    ensures GetType(WrapAll(err, msgs)) == GetType(err)
    ensures err.Typed? ==> GetErrorContext(WrapAll(err, msgs)) == GetErrorContext(err)
    ensures !err.Typed? && |msgs| > 0 ==> GetErrorContext(WrapAll(err, msgs)) == Some(ContextMap(EmptyContext))
    ensures EndsWith(Render(WrapAll(err, msgs)), Render(err))
    decreases |msgs|
  {
    if msgs != [] {
      var w := Wrap(err, msgs[0]);
      WrapAllPreservesTypeAndContext(w, msgs[1..]);
      assert EndsWith(Render(w), Render(err));
    }
  }

  /** Scenario: wrapping a typed error under an explicit category gives that category. */
  lemma TypedWrapOverridesCategory(k: ErrorType, k2: ErrorType, m: string, f: string)
    ensures GetType(k.Wrap(k2.New(m), f)) == k
    ensures Render(k.Wrap(k2.New(m), f)) == f + ": " + m
  {
  }

  /** The package's context survives a generic wrap and is dropped by a category-qualified one. */
  lemma ContextThroughWraps(e: Error, k: ErrorType, field: string, message: string, m: string)
    ensures GetErrorContext(Wrap(AddErrorContext(e, field, message), m))
         == Some(map[FieldKey := field, MessageKey := message])
    ensures GetErrorContext(k.Wrap(AddErrorContext(e, field, message), m))
         == Some(map[FieldKey := "", MessageKey := ""])
  {
  }

  /** A later context replaces an earlier one; they are not merged. */
  lemma AddErrorContextReplaces(e: Error, f1: string, m1: string, f2: string, m2: string)
    ensures AddErrorContext(AddErrorContext(e, f1, m1), f2, m2) == AddErrorContext(e, f2, m2)
  {
  }

  /** Scenario: reading back a context gives the context set; on an untyped error no layer is added. */
  lemma AddErrorContextRoundTrip(e: Error, field: string, message: string)
    ensures GetErrorContext(AddErrorContext(e, field, message)) == Some(ContextMap(ErrorContext(field, message)))
    ensures !e.Typed? ==> AddErrorContext(e, field, message) == Typed(NoType, e, ErrorContext(field, message))
  {
  }

  /** The reported map determines the context it was made from. */
  lemma ContextMapInjective(c1: ErrorContext, c2: ErrorContext)
    ensures ContextMap(c1) == ContextMap(c2) <==> c1 == c2
  {
    if ContextMap(c1) == ContextMap(c2) {
      assert c1.field == ContextMap(c1)[FieldKey] == ContextMap(c2)[FieldKey] == c2.field;
    }
  }

  /** The accessors are defined on errors the package did not build, with default answers. */
  lemma AccessorsOnForeignErrors(e: Error)
    requires !e.Typed?
    ensures GetType(e) == NoType
    ensures GetErrorContext(e) == None
    ensures !e.WithMessage? ==> Cause(e) == e
  {
  }

  /** An error is its own cause exactly when it is not a wrap layer; in particular a typed value is. */
  lemma CauseFixedPoints(e: Error)
    ensures Cause(e) == e <==> !e.WithMessage?
    ensures Cause(Cause(e)) == Cause(e)
  {
  }

  /** The cause looks through any number of bare wrap layers. */
  lemma {:induction false} CauseThroughWrapLayers(e: Error, msgs: seq<string>)
    ensures Cause(WithMessages(e, msgs)) == Cause(e)
    decreases |msgs|
  {
    if msgs != [] {
      CauseThroughWrapLayers(WithMessage(e, msgs[0]), msgs[1..]);
    }
  }

  /**
    Wrapping a new error twice with the generic wrap: the cause is the outer
    typed value itself, not the innermost error, and its text holds all
    three messages.
   */
  lemma CauseOfNestedWraps()
    ensures Cause(Wrap(Wrap(New("x"), "y"), "z")) == Wrap(Wrap(New("x"), "y"), "z")
    ensures Render(Cause(Wrap(Wrap(New("x"), "y"), "z"))) == "z: y: x"
  {
  }

  /**
    A root error wrapped under `BadRequest`: the category is `BadRequest` and,
    as the typed value is its own cause, the cause's text keeps the wrap message.
   */
  lemma CauseOfCategorisedWrap()
    ensures GetType(BadRequest.Wrap(Root("disk full"), "save failed")) == BadRequest
    ensures Cause(BadRequest.Wrap(Root("disk full"), "save failed")) == BadRequest.Wrap(Root("disk full"), "save failed")
    ensures Render(Cause(BadRequest.Wrap(Root("disk full"), "save failed"))) == "save failed: disk full"
  {
  }

  /** A new error renders as its message and reports its category. */
  lemma NewErrorScenarios()
    ensures GetType(AccessDenied.New("login failed")) == AccessDenied
    ensures Render(AccessDenied.New("login failed")) == "login failed"
    ensures GetType(NotFound.Newf("user 42 missing")) == NotFound
    ensures Render(NotFound.Newf("user 42 missing")) == "user 42 missing"
  {
  }
}
