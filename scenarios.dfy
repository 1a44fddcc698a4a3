/** Usage scenarios, as clients of the model: most from examples/examples.go, the rest small
    cases of the library's own edge behaviour. A context made by
    `context.Background()` is non-nil and carries no trace log. */
module Scenarios {
  import opened Base
  import opened CustomError
  import opened TraceContext
  import opened AppErrors

  /** Example 1: a database ping failure with its definition and status 503. */
  method ExampleDatabaseError() returns (e: AppError<string>)
    ensures e.GetErrCode() == "ERR_SVC_1001"
    ensures e.GetMsg() == "database is not reachable"
    ensures e.GetHTTPCode() == 503
    ensures e.GetErr() == Some(Failure("sql: connection is already closed"))
  {
    var onDBPingFailure := GetCustomErr("ERR_SVC_1001", "database is not reachable", false);
    var ctx: Ctx<string> := Ctx(OtherOrMissing);
    e := GetAppErr(ctx, Failure("sql: connection is already closed"), onDBPingFailure, 503, []);
  }

  /** Example 2: a payload attached after construction; the status stays 405. The string
      payload stands for the opaque map the example attaches. */
  method ExampleHTTPMethodError() returns (e: AppError<string>)
    ensures e.GetErrCode() == "ERR_SVC_1002" && e.GetMsg() == "method not allowed"
    ensures e.GetData() == Some("/api/users")
    ensures e.GetHTTPCode() == 405
  {
    var onHTTPRequestMethodNotAllowed := GetCustomErr("ERR_SVC_1002", "method not allowed", false);
    var ctx: Ctx<string> := Ctx(OtherOrMissing);
    e := GetAppErr(ctx, Failure("POST method not allowed on this endpoint"), onHTTPRequestMethodNotAllowed, 405, []);
    var r := e.SetData(Some("/api/users"));
  }

  /** A fluent chain of `SetData` and `SetHTTPCode` on the object each returns: both changes
      are kept, and the definition is untouched. */
  method ExampleChainedSetters() returns (e: AppError<string>)
    ensures e.GetData() == Some("email")
    ensures e.GetHTTPCode() == 422
    ensures e.GetErrCode() == "ERR_VALIDATION_001" && e.GetErrCodes() == ["ERR_VALIDATION_001"]
  {
    var customErr := GetCustomErr("ERR_VALIDATION_001", "invalid email format provided", false);
    var ctx: Ctx<string> := Ctx(OtherOrMissing);
    e := GetAppErr(ctx, Failure("email validation failed for: user@invalid"), customErr, 400, []);
    var r := e.SetData(Some("email"));
    r := r.SetHTTPCode(422);
  }

  /** Example 3: one added code becomes the primary code and extends the history. */
  method ExampleAuthorizationError() returns (e: AppError<string>)
    ensures e.GetErrCode() == "ERR_AUTH_TOKEN_EXPIRED"
    ensures e.GetErrCodes() == ["ERR_SVC_1004", "ERR_AUTH_TOKEN_EXPIRED"]
    ensures e.GetMsg() == "access token is missing or invalid"
  {
    var unAuthorizedStaticToken := GetCustomErr("ERR_SVC_1004", "access token is missing or invalid", false);
    var ctx: Ctx<string> := Ctx(OtherOrMissing);
    e := GetAppErr(ctx, Failure("invalid token provided"), unAuthorizedStaticToken, 401, []);
    var r := e.AddErrCode("ERR_AUTH_TOKEN_EXPIRED");
  }

  /** Example 4: chained codes, a replaced message and a payload; the underlying failure's
      message is still what `Error()` reports. The string payload stands for the opaque map
      the example attaches. */
  method ExampleErrorChaining() returns (e: AppError<string>)
    ensures e.GetErrCodes() == ["ERR_SVC_1003", "ERR_NETWORK_TIMEOUT", "ERR_DOWNSTREAM_SERVICE_UNAVAILABLE"]
    ensures e.GetErrCode() == "ERR_DOWNSTREAM_SERVICE_UNAVAILABLE"
    ensures e.GetMsg() == "downstream service connection timeout"
    ensures e.Error() == "connection timeout"
    ensures e.GetData() == Some("payment-service")
  {
    var unexpectedError := GetCustomErr("ERR_SVC_1003", "unexpected error occurred", false);
    var ctx: Ctx<string> := Ctx(OtherOrMissing);
    e := GetAppErr(ctx, Failure("connection timeout"), unexpectedError, 500, []);
    var r := e.AddErrCode("ERR_NETWORK_TIMEOUT");
    r := r.AddErrCode("ERR_DOWNSTREAM_SERVICE_UNAVAILABLE");
    r := e.SetMsg("downstream service connection timeout");
    r := e.SetData(Some("payment-service"));
  }

  /** Example 5: the template is retryable, but the owned copy is not, because `GetAppErr`
      copies only the code and the message. */
  method ExampleRetryableError() returns (isRetryable: bool)
    ensures !isRetryable
  {
    var serviceTemporarilyUnavailable := GetCustomErr("ERR_SVC_1005", "service temporarily unavailable", true);
    var ctx: Ctx<string> := Ctx(OtherOrMissing);
    var e: AppError<string> := GetAppErr(ctx, Failure("service overloaded"), serviceTemporarilyUnavailable, 503, []);
    isRetryable := e.CustomErr.Retryable;
  }

  /** Without a template the primary code and the history stay empty; the first payload is kept. */
  method ExampleWithoutTemplate() returns (e: AppError<string>)
    ensures e.GetErrCode() == "" && e.GetErrCodes() == [] && e.GetMsg() == ""
    ensures e.GetHTTPCode() == 400
    ensures e.GetData() == Some("first")
  {
    var ctx: Ctx<string> := NilCtx;
    e := GetAppErr(ctx, Failure("bad request"), null, 400, [Some("first"), Some("second")]);
  }

  /** A carrier with an empty trace log: two appends are recorded in call order. */
  method ExampleTraceOrder() returns (t: TraceMeta<string>)
    ensures t.Error == ["first", "second"]
    ensures t.Trace == []
  {
    t := new TraceMeta([], [], map[]);
    var ctx := Ctx(TraceMetaRef(t));
    var r := AddTraceLog(ctx, "first");
    r := AddTraceLog(ctx, "second");
  }

  /** A carrier without a trace log: the append degrades to nil. */
  method ExampleEmptyCarrier() returns (r: TraceMeta?<string>)
    ensures r == null
  {
    var ctx: Ctx<string> := Ctx(OtherOrMissing);
    r := AddTraceLog(ctx, "db timeout");
  }
}
