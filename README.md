# app-error: a Dafny model of a structured-error library

This project models the Go package `errors` of the app-error library. The package has three parts:

- `CustomErr` is a reusable error definition `{Code, Message, Retryable}`.
- `AppError` is a composite error. It holds the underlying Go `error`, its own copy of a
  definition's code and message, the ordered history of error codes, an HTTP status and an
  opaque payload. Fluent setters change it.
- `AddTraceLog` looks up a `*TraceMeta` in a request context and appends an error message to
  its `Error` log. If the context is nil, or carries no trace log, it does nothing.

The Dafny modules follow the source files:

- `Base` (base.dfy) holds `Option` for nil-able interface values, and `Failure` for a non-nil Go `error`.
  A `Failure` is opaque except for its message.
- `CustomError` (custom_error.dfy) models customError.go.
- `TraceContext` (trace_context.dfy) models context.go. The request context is a datatype.
  `NilCtx` is a nil context. `Ctx(TraceMetaRef(t))` is a context whose value under the trace key is the
  `*TraceMeta` `t`. `Ctx(OtherOrMissing)` means the key is missing or holds a value of another type.
- `AppErrors` (app_error.dfy) models appError.go. `AppError<D>` is a class whose fields the
  methods update in place. `D` stands for the `interface{}` payload. `State()` gives the value an
  object stands for, as an `ErrState`. Each mutator's postcondition gives the new `State()` in
  terms of the old one. The frame of each mutator is the one or two fields it writes.
  `AddCode`/`AddCodes` specify one `AddErrCode` call and a chain of them. The lemmas prove what
  such chains do to the code history.
- `Scenarios` (scenarios.dfy) holds client methods whose postconditions give the expected values.
  Most of them restate the scenarios of examples/examples.go. `ExampleChainedSetters` extends
  that file's example 6 with a chained `SetHTTPCode(422)`. `ExampleWithoutTemplate`,
  `ExampleTraceOrder` and `ExampleEmptyCarrier` are small cases of the library's own behaviour
  and do not come from that file.

Two behaviours of the library that a caller might not expect. Where the example program and the
library disagree, the model follows the library:

- A caller might expect construction to accept a nil `err`. `GetAppErr` calls `err.Error()`
  unconditionally (appError.go:96), so a nil `err` panics. The model's `GetAppErr` therefore takes
  a `Failure`, not an `Option<Failure>`.
- examples/examples.go:134 reads `CustomErr.Retryable` from a constructed error and expects the
  template's `true`. `GetAppErr` copies only `Code` and `Message` (appError.go:113-114), so the
  owned copy is always non-retryable. `GetAppErr` and `Scenarios.ExampleRetryableError` state this.

## Model

| member | source | states |
|---|---|---|
| `CustomError.CustomErr.constructor` | customError.go:12-16 | the new definition holds exactly the given code, message and retry hint |
| `CustomError.GetCustomErr` | customError.go:11-17 | total over all inputs; returns a freshly allocated definition holding exactly the given code, message and retry hint |
| `TraceContext.TraceMeta.constructor` | context.go:9-13 | a trace log holding exactly the given trace, error log and identifier mappings |
| `TraceContext.AddTraceLog` | context.go:15-28 | nil context: returns nil and writes nothing; key missing or of another type: returns nil and writes nothing; otherwise appends exactly `errorMsg` at the end of that log's `Error` and returns that same log, with `Trace` and `IdentifierMappings` unchanged |
| `TraceContext.AddTraceLogTwice` | context.go:26-27 | two appends on one carrier extend `Error` by both messages in call order; with no trace log both return nil |
| `AppErrors.CodeMatchesHistory` | appError.go:74-80 | the coupling `AddErrCode` keeps: the primary code is the latest history entry, and "" while the history is empty |
| `AppErrors.AddCode` | appError.go:74-80 | one `AddErrCode` step on the abstract state: only the primary code and the history may change, the history grows by at most one entry and keeps its old entries, and the coupling is preserved |
| `AppErrors.AddCodes` | examples/examples.go:104-105 | a fluent chain of `AddErrCode` calls in call order: only the primary code and the history may change, and the history grows by at most one entry per call |
| `AppErrors.NonEmpty` | appError.go:75 | the codes of a chain that `AddErrCode` does not skip, in order: none of them is "", and there are no more of them than calls |
| `AppErrors.NonEmptyKeepsNonEmptyCodes` | appError.go:75 | when no code of a chain is "", `AddErrCode` skips none of them |
| `AppErrors.AddCodesHistory` | appError.go:74-80 | a chain of `AddErrCode` calls appends exactly its non-empty codes to the history, in call order; the primary code becomes the last of them, or stays unchanged if there are none; no other field changes |
| `AppErrors.AddCodesSnoc` | appError.go:74-80 | adding one more code at the end of a chain is one `AddErrCode` step applied to the chain's result |
| `AppErrors.AddCodesKeepMatch` | appError.go:74-80 | if the primary code equals the latest history entry (or is "" with an empty history), it still does after any chain of `AddErrCode` calls |
| `AppErrors.SetErrCodeBreaksMatch` | appError.go:63-66 | setting any other primary code without touching the history breaks that coupling |
| `AppErrors.AppError.constructor` | appError.go:99-104 | the literal holds the given failure, owned definition and status, an empty history and a nil payload |
| `AppErrors.AppError.Error` | appError.go:17-22 | "" when there is no underlying failure, otherwise that failure's message verbatim; reads only `ActualErr`, never the definition's message |
| `AppErrors.AppError.GetErr` | appError.go:25-27 | returns the underlying failure of the current state |
| `AppErrors.AppError.GetMsg` | appError.go:36-38 | returns the owned definition's message |
| `AppErrors.AppError.GetHTTPCode` | appError.go:47-49 | returns the current status |
| `AppErrors.AppError.GetErrCode` | appError.go:58-60 | returns the owned definition's primary code |
| `AppErrors.AppError.GetErrCodes` | appError.go:69-71 | returns the code history |
| `AppErrors.AppError.GetData` | appError.go:83-85 | returns the payload |
| `AppErrors.AppError.SetErr` | appError.go:30-33 | replaces only the underlying failure and returns the new failure |
| `AppErrors.AppError.SetMsg` | appError.go:41-44 | replaces only the owned message and returns the same object |
| `AppErrors.AppError.SetHTTPCode` | appError.go:52-55 | replaces only the status and returns the same object |
| `AppErrors.AppError.SetErrCode` | appError.go:63-66 | replaces only the primary code (history untouched) and returns the same object |
| `AppErrors.AppError.AddErrCode` | appError.go:74-80 | "" changes nothing; any other code becomes the primary code and is appended to the history; returns the same object; keeps the primary code equal to the latest history entry |
| `AppErrors.AppError.SetData` | appError.go:88-91 | replaces only the payload and returns the same object |
| `AppErrors.GetAppErr` | appError.go:94-119 | appends the failure's message to the carried trace log, as `AddTraceLog` does; returns a fresh error whose owned definition is fresh (not the template). It holds the given failure and status, and the first payload if any (else nil). With a template it copies the template's code and message and the history is `[template.Code]`, even when that code is ""; without one, code, message and history are empty. The retry hint is always false. The template is unchanged |
| `AppErrors.ChainAfterTemplate` | appError.go:74-116 | after a template construction and any chain of `AddErrCode` calls, the history is the template's code followed by the chain's non-empty codes, and the primary code is its latest entry; when no code of the chain is "", the history is the template's code followed by the whole chain |
| `AppErrors.MutationsSpareTemplate` | appError.go:99-116 | `SetMsg`, `SetErrCode` and `AddErrCode` on the constructed error leave the template's fields unchanged |
| `AppErrors.TemplateMutationSparesError` | appError.go:99-116 | assigning the template's fields after construction leaves the constructed error's code, message and history unchanged |
| `Scenarios.ExampleDatabaseError` | examples/examples.go:38-51 | the constructed error reports the definition's code and message, status 503 and the underlying failure |
| `Scenarios.ExampleHTTPMethodError` | examples/examples.go:54-73 | a payload set after construction is returned by `GetData`; code, message and the status 405 stay as constructed |
| `Scenarios.ExampleChainedSetters` | examples/examples.go:146-169 | example 6's error, with `SetData` followed by a chained `SetHTTPCode(422)` on the returned object: both changes are kept, and code and history stay as constructed |
| `Scenarios.ExampleAuthorizationError` | examples/examples.go:76-91 | one added code becomes primary, and the history is the template code followed by it |
| `Scenarios.ExampleErrorChaining` | examples/examples.go:94-121 | two chained codes extend the history in call order; the replaced message and payload are kept; `Error()` still reports the underlying failure |
| `Scenarios.ExampleRetryableError` | examples/examples.go:124-143 | the constructed error is not retryable even though its template is |
| `Scenarios.ExampleWithoutTemplate` | appError.go:101-116 | without a template, code, message and history are empty; of two payloads only the first is kept |
| `Scenarios.ExampleTraceOrder` | context.go:26-27 | two appends to an empty trace log give `["first", "second"]` |
| `Scenarios.ExampleEmptyCarrier` | context.go:20-24 | a context without a trace log makes the append return nil |

## Left out

- The `context.Context` machinery (creation, cancellation, value propagation) and the constants package that defines `TraceMetaKey`. The lookup is the `Ctx`/`CtxValue` datatype.
- The typed-nil `*TraceMeta` stored in a context (context.go:21 would accept it and line 26 would panic). The model's `TraceMetaRef` always holds a non-null object.
- Concurrent appends to a shared `TraceMeta`, and concurrent mutation of one `AppError`. The source does both unsynchronized; the model is single-threaded.
- Go slice aliasing: the slice returned by `GetErrCodes` shares storage with the error (appError.go:70). The model returns the history as a `seq` value.
- The `error` interface behind `ActualErr`: a failure is reduced to its message. `AppError` itself also implements `error`, so it could be nested as another error's underlying failure. That nesting is not modelled.
- The `interface{}` payloads (`data`, `meta`) and `IdentifierMappings` values are values of a type parameter; a nil interface is `None`. In the scenarios a string stands for each map payload of examples/examples.go.
- A nil `CustomErr` pointer. In Go the field is an exported pointer: it is nil in a hand-built `&AppError{}` or after `e.CustomErr = nil`, and then `GetMsg`, `SetMsg`, `GetErrCode`, `SetErrCode` and `AddErrCode` panic. The model types the field as a non-null `CustomErr`, which is what `GetAppErr` always sets (appError.go:101), so those panics are not modelled.
- `GetAppErr` with a nil `err`: the source panics at appError.go:96, and the model excludes it by the parameter's type.
- The printing in examples/examples.go and its `main` are not modelled.
