/**
  A model of a small typed-error package: an error value that carries a
  category, the error chain it wraps and one `{Field, Message}` annotation.

  Everything is a value. Every constructor, wrapper and annotator builds a new
  `Error`; every accessor reads one. The wrap-and-unwrap library the package
  builds on is modelled only by the contract it relies on: a wrapped error
  renders as `msg + ": " + inner`, and finding the cause follows wrap layers
  only.
 */
module Errors {

  datatype Option<T> = None | Some(value: T)

  /** The category of an error. */
  datatype ErrorType = NoType | BadRequest | NotFound | AccessDenied
  {
    /** A new error of this category from an already-rendered message. */
    function New(msg: string): (r: Error)
      ensures r.Typed? && r.orig == Root(msg)
      ensures GetType(r) == this
      ensures GetErrorContext(r) == Some(ContextMap(EmptyContext))
      ensures Render(r) == msg
      ensures Cause(r) == r
    {
      Typed(this, Root(msg), EmptyContext)
    }

    /**
      A new error of this category from a format string and its arguments,
      given here as the text they format to. The library builds a plain
      formatted error rather than a stack-carrying one; neither has a cause,
      so both are a `Root`.
     */
    function Newf(formatted: string): (r: Error)
      ensures r.Typed? && r.orig == Root(formatted)
      ensures GetType(r) == this
      ensures GetErrorContext(r) == Some(ContextMap(EmptyContext))
      ensures Render(r) == formatted
      ensures Cause(r) == r
    {
      Typed(this, Root(formatted), EmptyContext)
    }

    /**
      Wraps `err` with a message; the category is this one, whatever `err` had.
      The message is passed on as a format string, so `msg` here stands for
      the text it formats to.
     */
    function Wrap(err: Error, msg: string): (r: Error)
      ensures r.Typed? && r.orig == WithMessage(err, msg)
      ensures GetType(r) == this
      ensures GetErrorContext(r) == Some(ContextMap(EmptyContext))
      ensures Render(r) == msg + ": " + Render(err)
      ensures Cause(r) == r
    {
      Wrapf(err, msg)
    }

    /**
      Wraps `err` with a formatted message. The category is overridden by this
      one and any context `err` carried is dropped.
     */
    function Wrapf(err: Error, formatted: string): (r: Error)
      ensures r.Typed? && r.orig == WithMessage(err, formatted)
      ensures GetType(r) == this
      ensures r.ctx == EmptyContext
      ensures GetErrorContext(r) == Some(ContextMap(EmptyContext))
      ensures Render(r) == formatted + ": " + Render(err)
      ensures Cause(r) == r
    {
      Typed(this, WithMessage(err, formatted), EmptyContext)
    }
  }

  /** Which input field an error is about, and why. */
  datatype ErrorContext = ErrorContext(field: string, message: string)

  /** The zero value of a context: both strings empty. */
  const EmptyContext := ErrorContext("", "")

  const FieldKey := "field"
  const MessageKey := "message"

  /**
    An error value as the package sees it.
    - `Typed` is the package's own value: a category, the error it wraps and a context.
    - `Root` is an error with no cause: a new stack-carrying error, or a plain
      formatted one.
    - `WithMessage` is a wrap layer adding a message over `inner` (the message
      and stack layers of the wrap library, taken together).
    - `Foreign` is any other error, known only by its text; it has no cause.
   */
  datatype Error =
    | Typed(kind: ErrorType, orig: Error, ctx: ErrorContext)
    | Root(msg: string)
    | WithMessage(inner: Error, msg: string)
    | Foreign(text: string)

  /**
    The messages met along the chain of `e`, outermost first, ending with the
    text of the error at its bottom; typed layers contribute none.
   */
  function Messages(e: Error): (ms: seq<string>)
    ensures |ms| > 0
  {
    match e
    case Typed(_, orig, _) => Messages(orig)
    case Root(msg) => [msg]
    case WithMessage(inner, msg) => [msg] + Messages(inner)
    case Foreign(text) => [text]
  }

  /** The strings of `ms` separated by `": "`. */
  function JoinColons(ms: seq<string>): string
    requires |ms| > 0
  {
    if |ms| == 1 then ms[0] else ms[0] + ": " + JoinColons(ms[1..])
  }

  /**
    The text of an error. A typed value shows the text of the error it wraps;
    a wrap layer shows its message, `": "` and the text beneath it, as the
    wrap library renders it.
   */
  function Render(e: Error): (r: string)
    ensures r == JoinColons(Messages(e))
    ensures e.Typed? ==> r == Render(e.orig)
  {
    match e
    case Typed(_, orig, _) => Render(orig)
    case Root(msg) => msg
    case WithMessage(inner, msg) => msg + ": " + Render(inner)
    case Foreign(text) => text
  }

  /** A new error with no category. */
  function New(msg: string): (r: Error)
    ensures r.Typed? && r.orig == Root(msg)
    ensures GetType(r) == NoType
    ensures GetErrorContext(r) == Some(ContextMap(EmptyContext))
    ensures Render(r) == msg
    ensures Cause(r) == r
  {
    Typed(NoType, Root(msg), EmptyContext)
  }

  /** A new error with no category from the text a format string and its arguments give. */
  function Newf(formatted: string): (r: Error)
    ensures r.Typed? && r.orig == Root(formatted)
    ensures GetType(r) == NoType
    ensures GetErrorContext(r) == Some(ContextMap(EmptyContext))
    ensures Render(r) == formatted
    ensures Cause(r) == r
  {
    Typed(NoType, Root(formatted), EmptyContext)
  }

  /**
    Wraps `err` with a message, keeping its category. The message is passed
    on as a format string, so `msg` here stands for the text it formats to.
   */
  function Wrap(err: Error, msg: string): (r: Error)
    ensures r.Typed? && r.orig == WithMessage(err, msg)
    ensures GetType(r) == GetType(err)
    ensures err.Typed? ==> r.ctx == err.ctx && GetErrorContext(r) == GetErrorContext(err)
    ensures !err.Typed? ==> r.kind == NoType && r.ctx == EmptyContext
    ensures Render(r) == msg + ": " + Render(err)
    ensures Cause(r) == r
  {
    Wrapf(err, msg)
  }

  /**
    Wraps `err` with a formatted message. A typed `err` passes on its category
    and its context; any other error gets no category and an empty context.
   */
  function Wrapf(err: Error, formatted: string): (r: Error)
    ensures r.Typed? && r.orig == WithMessage(err, formatted)
    ensures GetType(r) == GetType(err)
    ensures err.Typed? ==> r.ctx == err.ctx && GetErrorContext(r) == GetErrorContext(err)
    ensures !err.Typed? ==> r.kind == NoType && r.ctx == EmptyContext
    ensures Render(r) == formatted + ": " + Render(err)
    ensures Cause(r) == r
  {
    var wrapped := WithMessage(err, formatted);
    match err
    case Typed(kind, _, ctx) => Typed(kind, wrapped, ctx)
    case _ => Typed(NoType, wrapped, EmptyContext)
  }

  /** `s` ends with `t`. */
  predicate EndsWith(s: string, t: string)
  {
    |t| <= |s| && s[|s| - |t|..] == t
  }

  /**
    The cause of an error: wrap layers are peeled off until an error that has
    no cause is reached. A typed value has no cause of its own, so it is
    returned as it is, without looking at the error it wraps.
   */
  function Cause(e: Error): (r: Error)
    ensures !r.WithMessage?
    ensures !e.WithMessage? ==> r == e
    ensures EndsWith(Render(e), Render(r))
  {
    match e
    case WithMessage(inner, _) => Cause(inner)
    case _ => e
  }

  /** Sets the context of `err`, replacing any it had; nothing else changes. */
  function AddErrorContext(err: Error, field: string, message: string): (r: Error)
    ensures r.Typed? && r.ctx == ErrorContext(field, message)
    ensures GetErrorContext(r) == Some(map[FieldKey := field, MessageKey := message])
    ensures err.Typed? ==> r.kind == err.kind && r.orig == err.orig
    ensures !err.Typed? ==> r.kind == NoType && r.orig == err
    ensures GetType(r) == GetType(err)
    ensures Render(r) == Render(err)
  {
    var context := ErrorContext(field, message);
    match err
    case Typed(kind, orig, _) => Typed(kind, orig, context)
    case _ => Typed(NoType, err, context)
  }

  /** The two-entry map a context is reported as. */
  function ContextMap(c: ErrorContext): (m: map<string, string>)
    ensures m.Keys == {FieldKey, MessageKey}
    ensures m[FieldKey] == c.field && m[MessageKey] == c.message
  {
    map[FieldKey := c.field, MessageKey := c.message]
  }

  /**
    The context of an error as a map, or `None` for an error the package did
    not build. The test also accepts a non-empty context when the type test
    fails, but then the context read is the zero value, so it only ever
    accepts a typed value; an empty context is reported too.
   */
  function GetErrorContext(err: Error): (r: Option<map<string, string>>)
    ensures r.Some? <==> err.Typed?
    ensures r.Some? ==> r.value.Keys == {FieldKey, MessageKey}
    ensures r.Some? ==> r.value[FieldKey] == err.ctx.field && r.value[MessageKey] == err.ctx.message
  {
    // the type test yields the zero value when it fails
    var (customErr, ok) := match err
      case Typed(_, _, ctx) => (ctx, true)
      case _ => (EmptyContext, false);
    if ok || customErr != EmptyContext then Some(ContextMap(customErr)) else None
  }

  /** The category of an error; `NoType` for an error the package did not build. */
  function GetType(err: Error): (r: ErrorType)
    ensures err.Typed? ==> r == err.kind
    ensures !err.Typed? ==> r == NoType
  {
    match err
    case Typed(kind, _, _) => kind
    case _ => NoType
  }
}
