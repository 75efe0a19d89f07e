/** The error taxonomy: error codes, their user-facing messages, and `handle_error`. */
module Errors {
  import opened Wrappers

  datatype ErrorCode =
    | Unknown
    | AiApiError | AiRateLimit | AiInvalidResponse
    | PlatformLoginFailed | PlatformPostFailed | PlatformRateLimit | PlatformAuthRequired
    | DbConnectionError | DbQueryError
    | ValidationError

  /** The enum member's string value (`code.value`). */
  function Value(code: ErrorCode): string {
    match code
    case Unknown => "ERR000"
    case AiApiError => "AI001"
    case AiRateLimit => "AI002"
    case AiInvalidResponse => "AI003"
    case PlatformLoginFailed => "PL001"
    case PlatformPostFailed => "PL002"
    case PlatformRateLimit => "PL003"
    case PlatformAuthRequired => "PL004"
    case DbConnectionError => "DB001"
    case DbQueryError => "DB002"
    case ValidationError => "VAL001"
  }

  /** Enum lookup by value, `ErrorCode(s)`; `None` where Python raises `ValueError`. */
  function FromValue(s: string): (r: Option<ErrorCode>)
    ensures r.Some? ==> Value(r.value) == s
  {
    if s == "ERR000" then Some(Unknown)
    else if s == "AI001" then Some(AiApiError)
    else if s == "AI002" then Some(AiRateLimit)
    else if s == "AI003" then Some(AiInvalidResponse)
    else if s == "PL001" then Some(PlatformLoginFailed)
    else if s == "PL002" then Some(PlatformPostFailed)
    else if s == "PL003" then Some(PlatformRateLimit)
    else if s == "PL004" then Some(PlatformAuthRequired)
    else if s == "DB001" then Some(DbConnectionError)
    else if s == "DB002" then Some(DbQueryError)
    else if s == "VAL001" then Some(ValidationError)
    else None
  }

  /** Every code is found again from its value, so no two codes share a value. */
  lemma ValueRoundTrip(code: ErrorCode)
    ensures FromValue(Value(code)) == Some(code)
  {
  }

  lemma ValuesDistinct(a: ErrorCode, b: ErrorCode)
    requires Value(a) == Value(b)
    ensures a == b
  {
    ValueRoundTrip(a);
    ValueRoundTrip(b);
  }

  /** `ERROR_MESSAGES`. */
  const Messages: map<ErrorCode, string> := map[
    Unknown := "An unexpected error occurred. Please try again.",
    AiApiError := "AI service error. Please check your API key.",
    AiRateLimit := "AI rate limit reached. Please wait and try again.",
    AiInvalidResponse := "AI returned an invalid response. Please try again.",
    PlatformLoginFailed := "Failed to login. Please check your credentials.",
    PlatformPostFailed := "Failed to post. Platform may be unavailable.",
    PlatformRateLimit := "Platform rate limit reached. Please wait.",
    PlatformAuthRequired := "Please connect your account in Settings.",
    DbConnectionError := "Database error. Please restart the application.",
    DbQueryError := "Database query failed. Please try again.",
    ValidationError := "Invalid input. Please check your entries."
  ]

  /** The message table has an entry for every one of the eleven codes. */
  lemma MessagesTotal(code: ErrorCode)
    ensures code in Messages
  {
  }

  /** The subclasses of `MediaAgentError`; they add nothing but their class. */
  datatype ErrorClass = Base | AiClass | PlatformClass | DatabaseClass | ValidationClass

  datatype MediaAgentError = MediaAgentError(
    cls: ErrorClass, message: string, code: ErrorCode, details: Option<string>,
    userMessage: string)

  /** `ERROR_MESSAGES.get(code, ERROR_MESSAGES[ErrorCode.UNKNOWN])`. */
  function UserMessage(code: ErrorCode): (r: string)
    ensures code in Messages && r == Messages[code]
  {
    MessagesTotal(code);
    // The fallback is the `Unknown` entry; the table is total, so it is never taken.
    if code in Messages then Messages[code] else "An unexpected error occurred. Please try again."
  }

  /** The constructor; `code` defaults to `Unknown` and `details` to `None` at the Python call site. */
  function NewError(cls: ErrorClass, message: string, code: ErrorCode, details: Option<string>)
    : (e: MediaAgentError)
    ensures e.cls == cls && e.message == message && e.code == code && e.details == details
    ensures code in Messages && e.userMessage == Messages[code]
  {
    MediaAgentError(cls, message, code, details, UserMessage(code))
  }

  /** `MediaAgentError(message)` with the default arguments. */
  function NewDefaultError(message: string): (e: MediaAgentError)
    ensures e.code == Unknown && e.details == None
    ensures e.userMessage == "An unexpected error occurred. Please try again."
  {
    NewError(Base, message, Unknown, None)
  }

  /** `str(error)`: the bracketed code value, a space, and the message. */
  function ToString(e: MediaAgentError): string {
    "[" + Value(e.code) + "] " + e.message
  }

  /** `str(error)` is the code's bracketed value, a blank and the message; the code can be read back from it. */
  lemma ToStringPrefix(e: MediaAgentError)
    ensures var v := Value(e.code);
            |ToString(e)| >= |v| + 3 && ToString(e)[1..|v| + 1] == v
            && FromValue(ToString(e)[1..|v| + 1]) == Some(e.code)
            && ToString(e)[|v| + 1..|v| + 3] == "] " && ToString(e)[|v| + 3..] == e.message
  {
    var v := Value(e.code);
    assert ToString(e)[1..|v| + 1] == v;
    assert ToString(e)[|v| + 3..] == e.message;
    ValueRoundTrip(e.code);
  }

  /** What `handle_error` may be given: one of ours, or any other exception with its `str()`. */
  datatype Exception = AgentError(err: MediaAgentError) | OtherError(text: string)

  /** The dictionary `handle_error` returns. */
  datatype ErrorInfo = ErrorInfo(success: bool, errorCode: string, message: string, details: Option<string>)

  function HandleError(error: Exception): (r: ErrorInfo)
    ensures !r.success
    ensures error.AgentError? ==>
      r.errorCode == Value(error.err.code) && r.message == error.err.userMessage
      && r.details == error.err.details
    ensures error.OtherError? ==>
      r.errorCode == "ERR000" && r.message == Messages[Unknown]
      && r.details == Some(error.text)
  {
    match error
    case AgentError(e) => ErrorInfo(false, Value(e.code), e.userMessage, e.details)
    case OtherError(t) => ErrorInfo(false, Value(Unknown), Messages[Unknown], Some(t))
  }

  /** For an error built by the constructor, `handle_error` reports the table's message for its code. */
  lemma HandleConstructedError(cls: ErrorClass, message: string, code: ErrorCode, details: Option<string>)
    ensures HandleError(AgentError(NewError(cls, message, code, details)))
            == ErrorInfo(false, Value(code), Messages[code], details)
  {
  }
}
