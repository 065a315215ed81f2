# Typed errors with a category and a context

This project models a small Go error package (`errors.go`) in Dafny. The
package's error value, `customError`, carries three things:

- a category (`ErrorType`: `NoType`, `BadRequest`, `NotFound`, `AccessDenied`);
- the error chain it wraps;
- one `{Field, Message}` context annotation.

Every operation builds a new value or reads one; nothing is mutated. The model
is therefore a set of functions over one datatype, `Errors.Error`:

- `Typed(kind, orig, ctx)` is the package's own `customError`;
- `Root(msg)` is an error without a cause (`pkgerrors.New`, `fmt.Errorf`);
- `WithMessage(inner, msg)` is one `pkgerrors.Wrapf` layer;
- `Foreign(text)` is any other error.

The Go type assertions `err.(customError)` become pattern matches on `Typed`.
The `pkg/errors` library is modelled only by the contract the package relies
on: a wrap renders as `msg + ": " + inner` (`Errors.Render`), and
`pkgerrors.Cause` follows wrap layers until it reaches an error with no
`Cause()` method (`Errors.Cause`). `customError` has no such method, so the
cause of a typed value is that value itself.

`errors.dfy` holds the data model and the operations, each with a contract
that ties it to the accessors (`GetType`, `GetErrorContext`, `Render`,
`Cause`). `errors_properties.dfy` holds the lemmas that relate several
operations.

Two places where the code does less than its names or comments suggest; the
model follows the code:

- `Cause` carries the comment "Cause gives the original error"
  (errors.go:74), but it only delegates to `pkgerrors.Cause` (errors.go:76).
  That function stops at the first value without a `Cause()` method, and
  `customError` has none. So the cause of any typed value is that value
  itself, not the error it wraps: `Cause(Wrap(Wrap(New("x"), "y"), "z"))` is
  the outer typed value, with text `"z: y: x"`, and the cause of
  `BadRequest.Wrap(Root("disk full"), "save failed")` renders as
  `"save failed: disk full"` (`CauseOfNestedWraps`, `CauseOfCategorisedWrap`).
- The test at errors.go:106 is `ok || customErr.context != emptyContext`. When
  `ok` is false, `customErr` is the zero value, whose context is empty, so the
  second disjunct can never be true. `GetErrorContext` therefore returns a map
  exactly for typed values, even when their context is empty. The model keeps
  the test as written and proves this consequence.

## Model

| member | source | states |
|---|---|---|
| Errors.ErrorType.New | errors.go:35-37 | the result has this category, an empty context (still reported as a map), text equal to the message, and is its own cause |
| Errors.ErrorType.Newf | errors.go:40-42 | as `New`, for the formatted text: this category, empty context, text equal to the formatted message, its own cause |
| Errors.ErrorType.Wrap | errors.go:45-47 | the result has this category whatever `err` had, an empty context, the chain `WithMessage(err, msg)`, text `msg + ": " + text of err`, and is its own cause |
| Errors.ErrorType.Wrapf | errors.go:50-52 | category overridden by this one, any context of `err` dropped, chain `WithMessage(err, formatted)`, text `formatted + ": " + text of err`, its own cause |
| Errors.Render | errors.go:55-57 | a typed value's text is the text of the error it wraps; the text of any error is the messages along its chain, outermost first, joined by `": "`, typed layers adding none (the rendering of a wrap layer is the assumed contract of the wrap library) |
| Errors.New | errors.go:60-62 | the result has category `NoType`, an empty context, text equal to the message, and is its own cause |
| Errors.Newf | errors.go:65-67 | as `New` for the formatted text: `NoType`, empty context, that text, its own cause |
| Errors.Wrap | errors.go:70-72 | the category of the result equals that of `err` for every `err`; a typed `err` passes its context on, any other gives `NoType` and an empty context; text `msg + ": " + text of err`; its own cause |
| Errors.Wrapf | errors.go:80-91 | the category of `err` is kept; a typed `err` also passes its context on unchanged; any other `err` gives `NoType` and an empty context; the chain is `WithMessage(err, formatted)`; the result is its own cause |
| Errors.Cause | errors.go:75-77 | the cause is never a wrap layer; an error that is not a wrap layer (a typed value among them) is its own cause; the text of an error ends with the text of its cause |
| Errors.AddErrorContext | errors.go:94-101 | reading the context back gives exactly `{field, message}`; a typed `err` keeps its category and chain; any other `err` becomes a `NoType` value whose chain is `err` itself with no added layer; category and text never change |
| Errors.ContextMap | errors.go:108 | a context is reported as a map with exactly the keys `field` and `message`, holding the context's two strings |
| Errors.GetErrorContext | errors.go:104-112 | a map is returned exactly when the input is a typed value, empty context included; it has the two keys and the value's context |
| Errors.GetType | errors.go:115-121 | total: the category of a typed value, `NoType` for every other error |
| ErrorsProperties.RenderIgnoresTypedLayers | errors.go:55-57 | the text of any error equals the text of the same chain with every typed layer removed, so category and context never appear in it |
| ErrorsProperties.WrapAllPreservesTypeAndContext | errors.go:80-91 | after any number of generic wraps the category is that of the starting error, a typed error's context is unchanged, an untyped one's is empty after at least one wrap, and the text ends with the starting text |
| ErrorsProperties.TypedWrapOverridesCategory | errors.go:45-52 | scenario: wrapping any typed error under category `k` gives category `k`, with text `f + ": " + m` |
| ErrorsProperties.ContextThroughWraps | errors.go:80-98 | a context set by `AddErrorContext` survives a generic wrap and is reset to empty by a category-qualified wrap |
| ErrorsProperties.AddErrorContextReplaces | errors.go:94-98 | a second annotation replaces the first: the result equals annotating the original error once |
| ErrorsProperties.AddErrorContextRoundTrip | errors.go:94-108 | scenario: reading back the context just added gives it; on an untyped error the result is `Typed(NoType, e, ctx)` |
| ErrorsProperties.ContextMapInjective | errors.go:104-108 | two contexts give the same map exactly when they are equal |
| ErrorsProperties.AccessorsOnForeignErrors | errors.go:104-121 | on an error the package did not build, `GetType` is `NoType`, `GetErrorContext` is absent, and a root or foreign error is its own cause |
| ErrorsProperties.CauseFixedPoints | errors.go:75-77 | an error is its own cause exactly when it is not a wrap layer; the cause is idempotent |
| ErrorsProperties.CauseThroughWrapLayers | errors.go:75-77 | the cause looks through any number of bare wrap layers |
| ErrorsProperties.CauseOfNestedWraps | errors.go:60-91 | `Cause(Wrap(Wrap(New("x"), "y"), "z"))` is that outer typed value, with text `"z: y: x"` |
| ErrorsProperties.CauseOfCategorisedWrap | errors.go:45-77 | `BadRequest.Wrap(Root("disk full"), "save failed")` has category `BadRequest` and is its own cause, with text `"save failed: disk full"` |
| ErrorsProperties.NewErrorScenarios | errors.go:35-42 | `AccessDenied.New("login failed")` has category `AccessDenied` and text `"login failed"`; likewise `NotFound.Newf` with its formatted text |

## Left out

- printf formatting in `Newf` and `Wrapf` (`fmt.Errorf`, `fmt.Sprintf`, `pkgerrors.Wrapf`): the model takes the format string and its arguments as the text they format to.
- Errors.Wrap: `msg` is passed to `Wrapf` as a format string with no arguments (errors.go:71), so a `%` in it is interpreted; the model's `msg` stands for the text it formats to, which equals `msg` whenever `msg` has no `%`. Passing a caller's message as a format string is itself a hazard of the code (`Wrap(e, "100%")` renders as `"100%!(NOVERB): …"`).
- Errors.ErrorType.Wrap: likewise, `msg` is passed to `ErrorType.Wrapf` as a format string (errors.go:46); the model's `msg` stands for its formatted text.
- Stack traces captured by `pkgerrors.New` and `pkgerrors.Wrapf`: they affect neither category, context, text nor cause; the stack and message layers of one wrap are a single `WithMessage` layer.
- The difference between the plain error `fmt.Errorf` builds (in `ErrorType.Newf`) and the stack-carrying one `pkgerrors.New` builds: both are a `Root`, as neither has a cause.
- nil errors: `Wrapf(nil, …)` would leave the chain nil and make `Error()` panic, and `AddErrorContext(nil, …)` likewise; the datatype has no nil case, so these inputs are not modelled.
- Foreign errors that implement their own `Cause()` method: `Foreign` is an error without one, so `Cause` stops there.
- `ErrorType` values outside the four named constants (the Go type is a `uint`, so `ErrorType(7)` is legal): the model has exactly the four categories.
- The `pkg/errors` library's internals, and the way Go compares and formats values (`%+v`, `errors.Is`/`errors.As`).
