/**
 * The global error handler of the API (api/controllers/error-handler.js):
 * validation failures become lists of 400 entries; other errors are copied,
 * classified by name or code into an AppError, and sent with details in
 * development and with only status and message in production.
 */
module ErrorHandling {
  import opened JsValues
  import opened AppErrors

  /** The value of NODE_ENV. */
  datatype Env = Development | Production | OtherEnv(name: string)

  /** One failed check of a validation error: the database's carries `message`, the request validator's `msg`. */
  datatype SubError = SubError(message: Option<string>, msg: Option<string>)

  /**
   * An error object as the handler reads it. `name` and `code` are the error's
   * own names and codes; `statusCode`, `status` and `isOperational` are set on
   * an AppError; `stack` is absent on a copy made by spreading.
   */
  datatype ErrorRecord = ErrorRecord(
    name: Option<string>,
    code: Option<int>,
    message: Option<string>,
    path: Value,
    value: Value,
    statusCode: Option<int>,
    status: Option<string>,
    isOperational: bool,
    stack: Option<string>,
    errors: seq<SubError>)

  const UnhandledMessage: string := "Something went very wrong!"

  /** An AppError object itself: every field, the message included, can be read. */
  function FromAppError(e: AppErrorFields, stack: string): ErrorRecord {
    ErrorRecord(None, None, Some(e.message), Undefined, Undefined, Some(e.statusCode), Some(e.status),
                e.isOperational, Some(stack), [])
  }

  /** `{ ...appError, stack }`: a spread copies the enumerable fields, and an Error's message is not one of them. */
  function SpreadAppError(e: AppErrorFields, stack: string): ErrorRecord {
    ErrorRecord(None, None, None, Undefined, Undefined, Some(e.statusCode), Some(e.status),
                e.isOperational, Some(stack), [])
  }

  /** `String(x)` of an optional message: a missing one gives the empty message of `new Error(undefined)`. */
  function MessageText(o: Option<string>): string {
    if o.Some? then o.value else ""
  }

  // ---------------------------------------------------------------------------
  // The handlers of known errors
  // ---------------------------------------------------------------------------

  function HandleCastErrorDB(err: ErrorRecord): (e: AppErrorFields)
    ensures e.statusCode == 400 && e.status == "fail" && e.isOperational
  {
    NewAppError("Invalid " + JsString(err.path) + ": " + JsString(err.value) + ".", Some(400))
  }

  predicate IsQuote(c: char) {
    c == '"' || c == '\''
  }

  /** The characters `.` does not match. */
  predicate IsLineTerminator(c: char) {
    c == '\n' || c == '\r' || c == '\U{2028}' || c == '\U{2029}'
  }

  /**
   * The end of the first match of `(\\?.)*?\1` starting at `i`, where `\1` is
   * the quote `q`, in the order a backtracking matcher tries: stop at the
   * closing quote as early as possible; otherwise take an escaped pair if
   * that leads to a match, else a single character.
   */
  function CloseFrom(s: string, i: nat, q: char): (r: Option<nat>)
    requires i <= |s|
    ensures r.Some? ==> i < r.value <= |s| && s[r.value - 1] == q
    decreases |s| - i
  {
    if i == |s| then None
    else if s[i] == q then Some(i + 1)
    else if s[i] == '\\' && i + 1 < |s| && !IsLineTerminator(s[i + 1]) && CloseFrom(s, i + 2, q).Some? then
      CloseFrom(s, i + 2, q)
    else if !IsLineTerminator(s[i]) then CloseFrom(s, i + 1, q)
    else None
  }

  /** The leftmost match of `/(["'])(\\?.)*?\1/` at or after `p`, as a start and an end index. */
  function QuotedFrom(s: string, p: nat): (r: Option<(nat, nat)>)
    requires p <= |s|
    ensures r.Some? ==> p <= r.value.0 && r.value.0 + 2 <= r.value.1 <= |s|
    ensures r.Some? ==> IsQuote(s[r.value.0]) && s[r.value.1 - 1] == s[r.value.0]
    decreases |s| - p
  {
    if p == |s| then None
    else if IsQuote(s[p]) && CloseFrom(s, p + 1, s[p]).Some? then Some((p, CloseFrom(s, p + 1, s[p]).value))
    else QuotedFrom(s, p + 1)
  }

  /** `message.match(/(["'])(\\?.)*?\1/)[0]`, when there is a match. */
  function FirstQuoted(s: string): (r: Option<string>)
    ensures r.Some? ==> |r.value| >= 2 && IsQuote(r.value[0]) && r.value[|r.value| - 1] == r.value[0]
  {
    match QuotedFrom(s, 0)
    case None => None
    case Some((a, b)) => Some(s[a..b])
  }

  /** A code 11000 error; reading `.match` of a missing message throws. */
  function HandleDuplicateFieldsDB(err: ErrorRecord): (r: Result<AppErrorFields, JsError>)
    ensures r.Success? <==> err.message.Some?
    ensures r.Success? ==> r.value.statusCode == 400 && r.value.status == "fail"
  {
    if err.message.None? then Failure(TypeError("Cannot read properties of undefined (reading 'match')"))
    else
      var m := err.message.value;
      match FirstQuoted(m)
      case Some(value) => Success(NewAppError("Duplicate field value: " + value + ". Please use another value!", Some(400)))
      case None => Success(NewAppError(m, Some(400)))
  }

  /** `handleJWTError()`: an operational 401 asking the client to log in again. */
  function HandleJWTError(): (e: AppErrorFields)
    ensures e == AppErrorFields("Invalid token. Please log in again!", 401, "fail", true)
  {
    NewAppError("Invalid token. Please log in again!", Some(401))
  }

  /** `handleJWTExpiredError()`: the same operational 401 as `HandleJWTError`, differing only in its message. */
  function HandleJWTExpiredError(): (e: AppErrorFields)
    ensures e == AppErrorFields("Your token has expired! Please log in again.", 401, "fail", true)
  {
    NewAppError("Your token has expired! Please log in again.", Some(401))
  }

  /** `handleUnhandledError()` as written: the copy of the new AppError has lost its message. */
  function HandleUnhandledErrorAsWritten(stack: string): (e: ErrorRecord)
    ensures e.message.None? && e.statusCode == Some(500) && e.status == Some("error") && e.isOperational
  {
    SpreadAppError(NewAppError(UnhandledMessage, Some(500)), stack)
  }

  /** `handleUnhandledError()` as intended: the generic 500 error with its message. */
  function HandleUnhandledError(stack: string): (e: ErrorRecord)
    ensures e.message == Some(UnhandledMessage) && e.statusCode == Some(500) && e.status == Some("error")
    ensures e.isOperational
  {
    FromAppError(NewAppError(UnhandledMessage, Some(500)), stack)
  }

  // ---------------------------------------------------------------------------
  // Validation errors
  // ---------------------------------------------------------------------------

  /** One response entry; the copy of the error is only included in development. */
  datatype ValidationEntry = ValidationEntry(status: string, message: string, error: Option<ErrorRecord>)

  function HandleValidationErrors(e: AppErrorFields, stack: string, env: Env): ValidationEntry {
    if env == Development then ValidationEntry(e.status, e.message, Some(SpreadAppError(e, stack)))
    else ValidationEntry(e.status, e.message, None)
  }

  /** One entry per message, each built from a new AppError with code 400. */
  function ValidationEntries(messages: seq<string>, stack: string, env: Env): (r: seq<ValidationEntry>)
    ensures |r| == |messages|
  {
    seq(|messages|, i requires 0 <= i < |messages| => HandleValidationErrors(NewAppError(messages[i], Some(400)), stack, env))
  }

  function HandleValidationErrorsDB(err: ErrorRecord, stack: string, env: Env): seq<ValidationEntry> {
    ValidationEntries(seq(|err.errors|, i requires 0 <= i < |err.errors| => MessageText(err.errors[i].message)), stack, env)
  }

  function HandleExpressValidationErrors(err: ErrorRecord, stack: string, env: Env): seq<ValidationEntry> {
    ValidationEntries(seq(|err.errors|, i requires 0 <= i < |err.errors| => MessageText(err.errors[i].msg)), stack, env)
  }

  // ---------------------------------------------------------------------------
  // Responses
  // ---------------------------------------------------------------------------

  datatype Body = Body(status: Option<string>, message: Option<string>, error: Option<ErrorRecord>)

  datatype Response =
    | JsonResponse(httpStatus: int, body: Body)
    | ValidationResponse(httpStatus: int, entries: seq<ValidationEntry>)
    | NoResponse
      /** The handler itself threw. */
    | Crashed(thrown: JsError)

  function SendErrorDev(err: ErrorRecord): Response
    requires err.statusCode.Some?
  {
    JsonResponse(err.statusCode.value, Body(err.status, err.message, Some(err)))
  }

  function SendErrorProd(err: ErrorRecord): (r: Response)
    requires err.statusCode.Some?
    ensures r.JsonResponse? && r.body.error.None?
    ensures err.isOperational ==> r == JsonResponse(err.statusCode.value, Body(err.status, err.message, None))
    ensures !err.isOperational ==> r == JsonResponse(500, Body(Some("error"), Some(UnhandledMessage), None))
  {
    if err.isOperational then JsonResponse(err.statusCode.value, Body(err.status, err.message, None))
    else JsonResponse(500, Body(Some("error"), Some(UnhandledMessage), None))
  }

  /** The error still lacks a status code, a status word or a message. */
  predicate Incomplete(e: ErrorRecord) {
    e.statusCode.None? || e.statusCode.value == 0 || !Present(e.status) || !Present(e.message)
  }

  /**
   * The known-error checks, first match wins (a replaced error is an AppError,
   * whose name and code match none of the later checks), then the fallback
   * to `unhandled` for an error that is still incomplete.
   */
  function Classify(copy: ErrorRecord, stack: string, unhandled: ErrorRecord): (r: Result<ErrorRecord, JsError>)
    requires unhandled.statusCode.Some?
    ensures r.Success? ==> r.value.statusCode.Some?
  {
    var known :=
      if copy.name == Some("CastError") then Success(FromAppError(HandleCastErrorDB(copy), stack))
      else if copy.code == Some(11000) then
        (match HandleDuplicateFieldsDB(copy)
         case Success(e) => Success(FromAppError(e, stack))
         case Failure(x) => Failure(x))
      else if copy.name == Some("JsonWebTokenError") then Success(FromAppError(HandleJWTError(), stack))
      else if copy.name == Some("TokenExpiredError") then Success(FromAppError(HandleJWTExpiredError(), stack))
      else Success(copy);
    match known
    case Failure(x) => Failure(x)
    case Success(e) => Success(if Incomplete(e) then unhandled else e)
  }

  /** `{ ...err, message: err.message }`: the stack is not copied, the message is. */
  function CopyError(err: ErrorRecord): ErrorRecord {
    err.(stack := None)
  }

  function Respond(err: ErrorRecord, env: Env, classified: Result<ErrorRecord, JsError>): Response
    requires classified.Success? ==> classified.value.statusCode.Some?
  {
    match classified
    case Failure(x) => Crashed(x)
    case Success(e) =>
      if env == Development then
        SendErrorDev(if err.stack.Some? && err.stack.value != "" then e.(stack := err.stack) else e)
      else if env == Production then SendErrorProd(e)
      else NoResponse
  }

  /** The response to `err`, where `stack` is the trace recorded by any AppError the handler creates. */
  function ErrorResponse(err: ErrorRecord, env: Env, stack: string): Response {
    if err.name == Some("ExpressValidationErrors") then ValidationResponse(400, HandleExpressValidationErrors(err, stack, env))
    else if err.name == Some("ValidationError") then ValidationResponse(400, HandleValidationErrorsDB(err, stack, env))
    else Respond(err, env, Classify(CopyError(err), stack, HandleUnhandledError(stack)))
  }

  /** The same, with `handleUnhandledError` as written. */
  function ErrorResponseAsWritten(err: ErrorRecord, env: Env, stack: string): Response {
    if err.name == Some("ExpressValidationErrors") then ValidationResponse(400, HandleExpressValidationErrors(err, stack, env))
    else if err.name == Some("ValidationError") then ValidationResponse(400, HandleValidationErrorsDB(err, stack, env))
    else Respond(err, env, Classify(CopyError(err), stack, HandleUnhandledErrorAsWritten(stack)))
  }

  /** The checks of `errorHandler` on its copy of the error, in source order, each reassigning the local error. */
  method ClassifyError(copy: ErrorRecord, stack: string) returns (r: Result<ErrorRecord, JsError>)
    ensures r == Classify(copy, stack, HandleUnhandledError(stack))
  {
    var error := copy;
    if error.name == Some("CastError") {
      error := FromAppError(HandleCastErrorDB(error), stack);
    }
    if error.code == Some(11000) {
      var handled := HandleDuplicateFieldsDB(error);
      if handled.Failure? {
        return Failure(handled.error);
      }
      error := FromAppError(handled.value, stack);
    }
    if error.name == Some("JsonWebTokenError") {
      error := FromAppError(HandleJWTError(), stack);
    }
    if error.name == Some("TokenExpiredError") {
      error := FromAppError(HandleJWTExpiredError(), stack);
    }
    if Incomplete(error) {
      error := HandleUnhandledError(stack);
    }
    return Success(error);
  }

  /** `errorHandler`: the validation errors first, then the checks on a copy, then the response for the environment. */
  method ErrorHandler(err: ErrorRecord, env: Env, stack: string) returns (response: Response)
    ensures response == ErrorResponse(err, env, stack)
  {
    if err.name == Some("ExpressValidationErrors") {
      var entries := HandleExpressValidationErrors(err, stack, env);
      return ValidationResponse(400, entries);
    }
    if err.name == Some("ValidationError") {
      var entries := HandleValidationErrorsDB(err, stack, env);
      return ValidationResponse(400, entries);
    }
    var classified := ClassifyError(CopyError(err), stack);
    if classified.Failure? {
      return Crashed(classified.error);
    }
    var error := classified.value;
    if env == Development {
      if err.stack.Some? && err.stack.value != "" {
        error := error.(stack := err.stack);
      }
      response := SendErrorDev(error);
    } else if env == Production {
      response := SendErrorProd(error);
    } else {
      response := NoResponse;
    }
  }

  // ---------------------------------------------------------------------------
  // Properties
  // ---------------------------------------------------------------------------

  /** An error that is neither kind of validation error. */
  predicate NotValidation(err: ErrorRecord) {
    err.name != Some("ExpressValidationErrors") && err.name != Some("ValidationError")
  }

  /** The status code and the status/message pair a production client receives. */
  function Exposed(r: Response): (int, Option<string>, Option<string>)
    requires r.JsonResponse?
  {
    (r.httpStatus, r.body.status, r.body.message)
  }

  /** A cast error becomes 400 "Invalid <path>: <value>." */
  lemma {:induction false} CastErrorResponse(err: ErrorRecord, stack: string)
    requires err.name == Some("CastError")
    ensures ErrorResponse(err, Production, stack)
              == JsonResponse(400, Body(Some("fail"), Some("Invalid " + JsString(err.path) + ": " + JsString(err.value) + "."), None))
  {
  }

  /** A duplicate-key error becomes 400, quoting the first quoted value of its message when there is one. */
  lemma {:induction false} DuplicateKeyResponse(err: ErrorRecord, m: string, stack: string)
    requires NotValidation(err) && err.name != Some("CastError")
    requires err.code == Some(11000) && err.message == Some(m)
    ensures FirstQuoted(m).Some? ==>
              ErrorResponse(err, Production, stack)
                == JsonResponse(400, Body(Some("fail"), Some("Duplicate field value: " + FirstQuoted(m).value + ". Please use another value!"), None))
    ensures FirstQuoted(m).None? && m != "" ==>
              ErrorResponse(err, Production, stack) == JsonResponse(400, Body(Some("fail"), Some(m), None))
    ensures m == "" ==>
              ErrorResponse(err, Production, stack) == JsonResponse(500, Body(Some("error"), Some(UnhandledMessage), None))
  {
  }

  /** An invalid token becomes 401 with its fixed message. */
  lemma {:induction false} InvalidTokenResponse(err: ErrorRecord, stack: string)
    requires err.code != Some(11000) && err.name == Some("JsonWebTokenError")
    ensures ErrorResponse(err, Production, stack)
              == JsonResponse(401, Body(Some("fail"), Some("Invalid token. Please log in again!"), None))
  {
  }

  /** An expired token becomes 401 with its fixed message. */
  lemma {:induction false} ExpiredTokenResponse(err: ErrorRecord, stack: string)
    requires err.code != Some(11000) && err.name == Some("TokenExpiredError")
    ensures ErrorResponse(err, Production, stack)
              == JsonResponse(401, Body(Some("fail"), Some("Your token has expired! Please log in again."), None))
  {
  }

  /** An unrecognised error lacking a status code, a status or a message becomes the generic 500 error. */
  lemma {:induction false} IncompleteErrorResponse(err: ErrorRecord, stack: string)
    requires NotValidation(err) && err.code != Some(11000)
    requires err.name !in {Some("CastError"), Some("JsonWebTokenError"), Some("TokenExpiredError")}
    requires Incomplete(err)
    ensures ErrorResponse(err, Production, stack) == JsonResponse(500, Body(Some("error"), Some(UnhandledMessage), None))
    ensures var r := ErrorResponse(err, Development, stack);
              r.JsonResponse? && r.httpStatus == 500 && r.body.status == Some("error") && r.body.message == Some(UnhandledMessage)
  {
    assert CopyError(err).name == err.name;
  }

  /**
   * In production an operational error that is complete is sent with its own
   * code, status and message; a complete error that is not operational gets
   * the generic 500 error. Details are never sent in production.
   */
  lemma {:induction false} ProductionExposure(err: ErrorRecord, stack: string)
    requires NotValidation(err) && err.code != Some(11000)
    requires err.name !in {Some("CastError"), Some("JsonWebTokenError"), Some("TokenExpiredError")}
    requires !Incomplete(err)
    ensures var r := ErrorResponse(err, Production, stack);
      && r.JsonResponse? && r.body.error.None?
      && (err.isOperational ==> Exposed(r) == (err.statusCode.value, err.status, err.message))
      && (!err.isOperational ==> Exposed(r) == (500, Some("error"), Some(UnhandledMessage)))
  {
    assert CopyError(err).name == err.name;
  }

  /**
   * Outside development and production nothing is sent for an error that is
   * not a validation error, except that a duplicate-key error without a
   * message (and not a cast error) makes `handleDuplicateFieldsDB` throw
   * before the environment is consulted.
   */
  lemma {:induction false} OtherEnvironmentSilent(err: ErrorRecord, name: string, stack: string)
    requires NotValidation(err)
    ensures err.name == Some("CastError") || err.code != Some(11000) || err.message.Some? ==>
              ErrorResponse(err, OtherEnv(name), stack) == NoResponse
    ensures err.name != Some("CastError") && err.code == Some(11000) && err.message.None? ==>
              ErrorResponse(err, OtherEnv(name), stack) == Crashed(TypeError("Cannot read properties of undefined (reading 'match')"))
  {
  }

  /** Validation errors give one 400 entry per failed check, carrying its message; only development adds the error copy. */
  lemma {:induction false} ValidationResponses(err: ErrorRecord, env: Env, stack: string)
    requires !NotValidation(err)
    ensures var r := ErrorResponse(err, env, stack);
      && r.ValidationResponse? && r.httpStatus == 400 && |r.entries| == |err.errors|
      && forall i | 0 <= i < |r.entries| ::
           && r.entries[i].status == "fail"
           && r.entries[i].message == MessageText(if err.name == Some("ValidationError") then err.errors[i].message else err.errors[i].msg)
           && (r.entries[i].error.Some? <==> env == Development)
  {
  }

  /** As written, the generic error reaches a production client without any message. */
  lemma {:induction false} UnhandledMessageLost(err: ErrorRecord, stack: string)
    requires NotValidation(err) && err.code != Some(11000)
    requires err.name !in {Some("CastError"), Some("JsonWebTokenError"), Some("TokenExpiredError")}
    requires Incomplete(err)
    ensures ErrorResponseAsWritten(err, Production, stack) == JsonResponse(500, Body(Some("error"), None, None))
    ensures ErrorResponse(err, Production, stack).body.message == Some(UnhandledMessage)
  {
    assert CopyError(err).name == err.name;
  }

  // The duplicate-value pattern

  /** A closing quote with no line terminator before it is always reached. */
  lemma {:induction false} CloseFromFinds(s: string, i: nat, q: char, j: nat)
    requires i <= j < |s| && s[j] == q
    requires forall k | i <= k < j :: !IsLineTerminator(s[k])
    ensures CloseFrom(s, i, q).Some?
    decreases j - i
  {
    if s[i] != q {
      if !(s[i] == '\\' && i + 1 < |s| && !IsLineTerminator(s[i + 1]) && CloseFrom(s, i + 2, q).Some?) {
        CloseFromFinds(s, i + 1, q, j);
      }
    }
  }

  /** The match is the leftmost: no quote before it opens a match. */
  lemma {:induction false} QuotedFromLeftmost(s: string, p: nat)
    requires p <= |s|
    ensures QuotedFrom(s, p).Some? ==>
              forall k | p <= k < QuotedFrom(s, p).value.0 :: !(IsQuote(s[k]) && CloseFrom(s, k + 1, s[k]).Some?)
    decreases |s| - p
  {
    if p < |s| && !(IsQuote(s[p]) && CloseFrom(s, p + 1, s[p]).Some?) {
      QuotedFromLeftmost(s, p + 1);
    }
  }

  /** A message holding two equal quotes with no line break between them has a match. */
  lemma {:induction false} QuotedFromFinds(s: string, p: nat, a: nat, b: nat)
    requires p <= a < b < |s| && IsQuote(s[a]) && s[b] == s[a]
    requires forall k | a < k < b :: !IsLineTerminator(s[k])
    ensures QuotedFrom(s, p).Some? && QuotedFrom(s, p).value.0 <= a
    decreases |s| - p
  {
    if !(IsQuote(s[p]) && CloseFrom(s, p + 1, s[p]).Some?) {
      if a == p {
        CloseFromFinds(s, p + 1, s[p], b);
      } else {
        QuotedFromFinds(s, p + 1, a, b);
      }
    }
  }
}
