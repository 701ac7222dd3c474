/** The backend's response envelopes, its error classes and its top-level
    Express error handler. The clock (`new Date().toISOString()`) is the
    parameter `now`; the logger is not modelled. */
module ErrorHandler {
  import opened Optional
  import opened Json
  import opened Http

  /** The fields of `{ success: false, error: { ... } }`. */
  datatype ErrorEnvelope = ErrorEnvelope(message: string, statusCode: int, details: Value, timestamp: string)

  /** The fields of `{ success: true, message, data, timestamp }`. */
  datatype SuccessEnvelope = SuccessEnvelope(message: string, data: Value, timestamp: string)

  /** `createErrorResponse(message, statusCode = 500, details = null)`. */
  function CreateErrorResponse(now: string, message: string, statusCode: int := 500, details: Value := Null): (r: Value)
    ensures ReadErrorResponse(r) == Some(ErrorEnvelope(message, statusCode, details, now))
    ensures ReadSuccessResponse(r) == None
  {
    Obj(map[
      "success" := Bool(false),
      "error" := Obj(map[
        "message" := Str(message),
        "statusCode" := Num(statusCode),
        "details" := details,
        "timestamp" := Str(now)])])
  }

  /** `createSuccessResponse(data, message = 'Success')`. */
  function CreateSuccessResponse(now: string, data: Value, message: string := "Success"): (r: Value)
    ensures ReadSuccessResponse(r) == Some(SuccessEnvelope(message, data, now))
    ensures ReadErrorResponse(r) == None
  {
    Obj(map[
      "success" := Bool(true),
      "message" := Str(message),
      "data" := data,
      "timestamp" := Str(now)])
  }

  /** How a client reads an error envelope: `success` is `false` and `error`
      carries a string message, a numeric code, details and a string timestamp. */
  function ReadErrorResponse(v: Value): Option<ErrorEnvelope> {
    if v.Obj? && Field(v.fields, "success") == Some(Bool(false)) && "error" in v.fields && v.fields["error"].Obj? then
      var e := v.fields["error"].fields;
      if "message" in e && e["message"].Str? && "statusCode" in e && e["statusCode"].Num?
         && "details" in e && "timestamp" in e && e["timestamp"].Str?
      then Some(ErrorEnvelope(e["message"].s, e["statusCode"].n, e["details"], e["timestamp"].s))
      else None
    else None
  }

  /** How a client reads a success envelope: `success` is `true`, with a string
      message, the data and a string timestamp. */
  function ReadSuccessResponse(v: Value): Option<SuccessEnvelope> {
    if v.Obj? && Field(v.fields, "success") == Some(Bool(true))
       && "message" in v.fields && v.fields["message"].Str?
       && "data" in v.fields && "timestamp" in v.fields && v.fields["timestamp"].Str?
    then Some(SuccessEnvelope(v.fields["message"].s, v.fields["data"], v.fields["timestamp"].s))
    else None
  }

  /** The defaults of `createErrorResponse`: status 500 and `null` details. */
  lemma ErrorResponseDefaults(now: string, message: string)
    ensures ReadErrorResponse(CreateErrorResponse(now, message)) == Some(ErrorEnvelope(message, 500, Null, now))
  {
  }

  /** The default of `createSuccessResponse`: the message 'Success', with the
      data passed through untouched. */
  lemma SuccessResponseDefaults(now: string, data: Value)
    ensures ReadSuccessResponse(CreateSuccessResponse(now, data)) == Some(SuccessEnvelope("Success", data, now))
  {
  }

  /** An error as the handler sees it. `statusCode` is `None` when the
      property is absent; `details` is `None` on the classes that never set
      it; `stack` is `None` when the thrown value carries no stack. */
  datatype ErrorObject = ErrorObject(
    name: string,
    message: string,
    statusCode: Option<int>,
    details: Option<Value>,
    stack: Option<string>)

  /** `new ValidationError(message, details = null)`; `stack` is what the
      runtime records at construction. */
  function NewValidationError(stack: string, message: string, details: Value := Null): (e: ErrorObject)
    ensures e.name == "ValidationError" && e.message == message
    ensures e.statusCode == Some(400) && e.details == Some(details)
    ensures e.stack == Some(stack)
  {
    ErrorObject("ValidationError", message, Some(400), Some(details), Some(stack))
  }

  /** `new AuthenticationError(message = 'Authentication failed')`. */
  function NewAuthenticationError(stack: string, message: string := "Authentication failed"): (e: ErrorObject)
    ensures e.name == "AuthenticationError" && e.message == message
    ensures e.statusCode == Some(401) && e.details == None
    ensures e.stack == Some(stack)
  {
    ErrorObject("AuthenticationError", message, Some(401), None, Some(stack))
  }

  /** `new AuthorizationError(message = 'Access denied')`. */
  function NewAuthorizationError(stack: string, message: string := "Access denied"): (e: ErrorObject)
    ensures e.name == "AuthorizationError" && e.message == message
    ensures e.statusCode == Some(403) && e.details == None
    ensures e.stack == Some(stack)
  {
    ErrorObject("AuthorizationError", message, Some(403), None, Some(stack))
  }

  /** `new NotFoundError(message = 'Resource not found')`. */
  function NewNotFoundError(stack: string, message: string := "Resource not found"): (e: ErrorObject)
    ensures e.name == "NotFoundError" && e.message == message
    ensures e.statusCode == Some(404) && e.details == None
    ensures e.stack == Some(stack)
  {
    ErrorObject("NotFoundError", message, Some(404), None, Some(stack))
  }

  /** `err.statusCode || 500`: an absent or zero code is falsy. */
  function StatusOf(err: ErrorObject): (code: int)
    ensures code != 0
    ensures err.statusCode.Some? && err.statusCode.value != 0 ==> code == err.statusCode.value
    ensures err.statusCode.None? || err.statusCode.value == 0 ==> code == 500
  {
    match err.statusCode
    case Some(c) => if c != 0 then c else 500
    case None => 500
  }

  /** The Express error handler: `nodeEnv` is `process.env.NODE_ENV`. */
  function HandleError(err: ErrorObject, nodeEnv: Option<string>, now: string): (r: Response)
    ensures r.body.JsonBody?
    ensures var env := ReadErrorResponse(r.body.value);
      && env.Some?
      && r.status == env.value.statusCode == StatusOf(err)
      && env.value.timestamp == now
      && (nodeEnv == Some("development") ==>
            && env.value.message == err.message
            && (err.stack.Some? ==> env.value.details == Str(err.stack.value))
            && (err.stack.None? ==> env.value.details == Null))
      && (nodeEnv != Some("development") ==>
            env.value.message == "Internal server error" && env.value.details == Null)
  {
    var isDevelopment := nodeEnv == Some("development");
    var errorMessage := if isDevelopment then err.message else "Internal server error";
    // An undefined stack falls back to the envelope's `details = null`.
    var errorDetails := if isDevelopment && err.stack.Some? then Str(err.stack.value) else Null;
    Response(StatusOf(err), JsonBody(CreateErrorResponse(now, errorMessage, StatusOf(err), errorDetails)))
  }

  /** Each error class reaches the caller with its own status code, whatever
      the environment; a `ValidationError`'s details never reach it. */
  lemma ErrorClassStatus(stack: string, message: string, details: Value, nodeEnv: Option<string>, now: string)
    ensures HandleError(NewValidationError(stack, message, details), nodeEnv, now).status == 400
    ensures HandleError(NewAuthenticationError(stack), nodeEnv, now).status == 401
    ensures HandleError(NewAuthorizationError(stack), nodeEnv, now).status == 403
    ensures HandleError(NewNotFoundError(stack), nodeEnv, now).status == 404
    ensures HandleError(NewValidationError(stack, message, details), nodeEnv, now)
         == HandleError(NewValidationError(stack, message), nodeEnv, now)
  {
  }

  /** Outside development two errors with the same status code are reported
      identically: nothing of the message, details or stack leaks. */
  lemma ProductionHidesError(a: ErrorObject, b: ErrorObject, nodeEnv: Option<string>, now: string)
    requires nodeEnv != Some("development")
    requires StatusOf(a) == StatusOf(b)
    ensures HandleError(a, nodeEnv, now) == HandleError(b, nodeEnv, now)
  {
  }

  /** The default messages: in development they are what the caller sees. */
  lemma DefaultMessages(stack: string, now: string)
    ensures ReadErrorResponse(HandleError(NewAuthenticationError(stack), Some("development"), now).body.value).value.message == "Authentication failed"
    ensures ReadErrorResponse(HandleError(NewAuthorizationError(stack), Some("development"), now).body.value).value.message == "Access denied"
    ensures ReadErrorResponse(HandleError(NewNotFoundError(stack), Some("development"), now).body.value).value.message == "Resource not found"
  {
  }
}
