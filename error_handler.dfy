/**
 * `ErrorHandlerService`: turns whatever was thrown into an `AppError`. An HTTP
 * failure is classified by its status code (the status codes of section 15 of
 * RFC 9110); anything else is recognised by its shape as a validation error,
 * a network error or, failing both, an unknown error.
 */
module ErrorHandling {
  import opened Wrappers
  import opened Text
  import opened ErrorTypes

  /**
   * A thrown value as the dispatch sees it: an `HttpErrorResponse`, a falsy
   * value (`null`, `undefined`, `0`, ""), or any other value described by the
   * properties the shape tests read.
   */
  datatype Thrown =
    | HttpFailure(status: nat, statusText: string, url: Option<string>, message: string)
    | Falsy
    | Raised(
        errorName: Option<string>,
        errorMessage: Option<string>,
        /** `validationErrors` is truthy */
        validationErrors: bool,
        /** `fieldErrors` is truthy */
        fieldErrors: bool,
        /** the value is an array and some element has a truthy `field` */
        arrayWithField: bool)

  /** `sub` occurs in `s` starting at index `i`. */
  predicate OccursAt(s: string, sub: string, i: nat) {
    i + |sub| <= |s| && s[i..i + |sub|] == sub
  }

  /** `s.includes(sub)`. */
  predicate Includes(s: string, sub: string) {
    exists i: nat :: i <= |s| && OccursAt(s, sub, i)
  }

  /** The statuses that are a VALIDATION error. */
  predicate IsInputStatus(status: nat) {
    status == 400 || status == 422
  }

  /** The statuses that are an AUTHENTICATION error. */
  predicate IsAccessStatus(status: nat) {
    status == 401 || status == 403
  }

  /** The statuses that are a SERVER_ERROR. */
  predicate IsServerStatus(status: nat) {
    status == 500 || status == 502 || status == 503 || status == 504
  }

  /** The messages the handlers attach, as the service spells them. */
  const CheckInputMessage := "Please check your input and try again."
  const SignInMessage := "Please sign in to continue."
  const ForbiddenMessage := "You do not have permission to perform this action."
  const NotFoundMessage := "The requested resource was not found."
  const InvalidDataMessage := "The provided data is invalid."
  const ServerMessage := "Server error occurred. Please try again later."
  const HttpNetworkMessage := "Network error occurred. Please check your connection."
  const ValidationFailed := "Validation failed"
  const CorrectFieldsMessage := "Please correct the highlighted fields and try again."
  const NetworkErrorText := "Network error"
  const UnableToConnectMessage := "Unable to connect. Please check your internet connection."
  const SomethingWentWrongMessage := "Something went wrong. Please try again."
  const UnexpectedError := "An unexpected error occurred"

  /** What the status `switch` of `handleHttpError` decides. */
  datatype StatusClass = StatusClass(errorType: ErrorType, severity: ErrorSeverity, userMessage: string)

  /** The `switch` on the status: type, severity and user message. */
  function ClassifyStatus(status: nat): (c: StatusClass)
    ensures c.errorType == Validation <==> IsInputStatus(status)
    ensures c.errorType == Authentication <==> IsAccessStatus(status)
    ensures c.errorType == NotFound <==> status == 404
    ensures c.errorType == ServerError <==> IsServerStatus(status)
    ensures c.errorType == Network <==> !IsInputStatus(status) && !IsAccessStatus(status) && status != 404 && !IsServerStatus(status)
    ensures c.errorType != Unknown
    ensures c.severity == High <==> IsAccessStatus(status) || IsServerStatus(status)
    ensures c.severity == Medium <==> !(IsAccessStatus(status) || IsServerStatus(status))
    ensures status == 400 ==> c.userMessage == CheckInputMessage
    ensures status == 401 ==> c.userMessage == SignInMessage
    ensures status == 403 ==> c.userMessage == ForbiddenMessage
    ensures status == 404 ==> c.userMessage == NotFoundMessage
    ensures status == 422 ==> c.userMessage == InvalidDataMessage
    ensures IsServerStatus(status) ==> c.userMessage == ServerMessage
    ensures c.errorType == Network ==> c.userMessage == HttpNetworkMessage
  {
    if status == 400 then StatusClass(Validation, Medium, CheckInputMessage)
    else if status == 401 then StatusClass(Authentication, High, SignInMessage)
    else if status == 403 then StatusClass(Authentication, High, ForbiddenMessage)
    else if status == 404 then StatusClass(NotFound, Medium, NotFoundMessage)
    else if status == 422 then StatusClass(Validation, Medium, InvalidDataMessage)
    else if IsServerStatus(status) then StatusClass(ServerError, High, ServerMessage)
    else StatusClass(Network, Medium, HttpNetworkMessage)
  }

  /**
   * `handleHttpError`: the classification of the status, the response's
   * message, the status in decimal as the code, and the response's details.
   */
  function HandleHttpError(status: nat, statusText: string, url: Option<string>, message: string): (r: AppError)
    ensures var c := ClassifyStatus(status);
      r.errorType == c.errorType && r.severity == c.severity && r.userMessage == c.userMessage
    ensures r.message == message
    ensures r.code.Some? && AllDigits(r.code.value) && ParseDigits(r.code.value) == status
    ensures r.details == Api(ApiError(status, statusText, url.GetOr(""), message))
  {
    var c := ClassifyStatus(status);
    ParseNatToString(status);
    AppError(c.errorType, c.severity, message, c.userMessage, Some(NatToString(status)),
             Api(ApiError(status, statusText, url.GetOr(""), message)))
  }

  /** `isValidationError`: a truthy value with validation or field errors, or an array of field errors. */
  predicate IsValidationError(e: Thrown) {
    e.Raised? && (e.validationErrors || e.fieldErrors || e.arrayWithField)
  }

  /** `isNetworkError`: a truthy value named or described as a network failure, or any truthy value while offline. */
  predicate IsNetworkError(e: Thrown, online: bool) {
    e.Raised? && (
      e.errorName == Some("NetworkError")
      || (e.errorMessage.Some? && Includes(e.errorMessage.value, "NetworkError"))
      || (e.errorMessage.Some? && Includes(e.errorMessage.value, "Failed to fetch"))
      || !online)
  }

  /** `handleValidationError`. */
  function HandleValidationError(): (r: AppError)
    ensures r.errorType == Validation && r.severity == Medium && r.code.None?
    ensures r.message == ValidationFailed
    ensures r.userMessage == CorrectFieldsMessage
  {
    AppError(Validation, Medium, ValidationFailed, CorrectFieldsMessage, None, Opaque)
  }

  /** `handleNetworkError`. */
  function HandleNetworkError(): (r: AppError)
    ensures r.errorType == Network && r.severity == Medium && r.code.None?
    ensures r.message == NetworkErrorText
    ensures r.userMessage == UnableToConnectMessage
  {
    AppError(Network, Medium, NetworkErrorText, UnableToConnectMessage, None, Opaque)
  }

  /** `handleUnknownError`: the thrown value's own message when it has a non-empty one, else a fixed text. */
  function HandleUnknownError(e: Thrown): (r: AppError)
    ensures r.errorType == Unknown && r.severity == Medium && r.code.None?
    ensures r.userMessage == SomethingWentWrongMessage
    ensures e.Raised? && e.errorMessage.Some? && e.errorMessage.value != "" ==> r.message == e.errorMessage.value
    ensures !(e.Raised? && e.errorMessage.Some? && e.errorMessage.value != "") ==> r.message == UnexpectedError
    ensures r.message != ""
  {
    var own := if e.Raised? && e.errorMessage.Some? then e.errorMessage.value else "";
    AppError(Unknown, Medium, if own != "" then own else UnexpectedError,
             SomethingWentWrongMessage, None, Opaque)
  }

  /**
   * `handleError`: an HTTP response first, then the validation shape, then
   * the network tests (`online` is the browser's connectivity flag), and
   * unknown for everything else.
   */
  function HandleError(e: Thrown, online: bool): (r: AppError)
    ensures e.HttpFailure? ==> r == HandleHttpError(e.status, e.statusText, e.url, e.message)
    ensures !e.HttpFailure? && IsValidationError(e) ==> r == HandleValidationError()
    ensures !e.HttpFailure? && !IsValidationError(e) && IsNetworkError(e, online) ==> r == HandleNetworkError()
    ensures !e.HttpFailure? && !IsValidationError(e) && !IsNetworkError(e, online) ==> r == HandleUnknownError(e)
  {
    if e.HttpFailure? then HandleHttpError(e.status, e.statusText, e.url, e.message)
    else if IsValidationError(e) then HandleValidationError()
    else if IsNetworkError(e, online) then HandleNetworkError()
    else HandleUnknownError(e)
  }

  /** An error is UNKNOWN exactly when it is neither an HTTP response nor of the validation or network shape. */
  lemma UnknownIffUnrecognised(e: Thrown, online: bool)
    ensures HandleError(e, online).errorType == Unknown <==>
      !e.HttpFailure? && !IsValidationError(e) && !IsNetworkError(e, online)
  {
  }

  /** The validation shape wins over the network tests: such an error is VALIDATION even when offline. */
  lemma ValidationBeforeNetwork(e: Thrown, online: bool)
    requires IsValidationError(e)
    ensures HandleError(e, online).errorType == Validation
    ensures HandleError(e, online).message == ValidationFailed
  {
  }

  /** While offline, every truthy non-HTTP value is classified, and only a validation shape escapes NETWORK. */
  lemma OfflineIsNetwork(e: Thrown)
    requires e.Raised? && !IsValidationError(e)
    ensures HandleError(e, false).errorType == Network
  {
  }

  /** A falsy thrown value is UNKNOWN with the fixed message, whatever the connectivity. */
  lemma FalsyIsUnknown(online: bool)
    ensures HandleError(Falsy, online).errorType == Unknown
    ensures HandleError(Falsy, online).message == UnexpectedError
  {
  }

  /** The decimal code of two HTTP errors with different statuses differ. */
  lemma CodeIdentifiesStatus(a: nat, b: nat, text: string, url: Option<string>, message: string)
    requires HandleHttpError(a, text, url, message).code == HandleHttpError(b, text, url, message).code
    ensures a == b
  {
    var ca := HandleHttpError(a, text, url, message).code.value;
    assert ParseDigits(ca) == a;
  }

  datatype LogLevel = ErrorLevel | WarnLevel | LogLevel

  /** `getLogLevel`: CRITICAL and HIGH are errors, MEDIUM a warning, LOW a plain log. */
  function GetLogLevel(severity: ErrorSeverity): (r: LogLevel)
    ensures r == ErrorLevel <==> severity == Critical || severity == High
    ensures r == WarnLevel <==> severity == Medium
    ensures r == LogLevel <==> severity == Low
  {
    match severity
    case Critical => ErrorLevel
    case High => ErrorLevel
    case Medium => WarnLevel
    case Low => LogLevel
  }

  /** Whatever is thrown, the level is never the plain log: the handler produces only MEDIUM and HIGH errors. */
  lemma HandledErrorsAreLogged(e: Thrown, online: bool)
    ensures GetLogLevel(HandleError(e, online).severity) != LogLevel
    ensures GetLogLevel(HandleError(e, online).severity) == ErrorLevel <==>
      e.HttpFailure? && (IsAccessStatus(e.status) || IsServerStatus(e.status))
  {
  }

  /**
   * How many notifications the HTTP interceptor shows for a failed response:
   * one for a client error (400 to 499), one for a server error (500 and up).
   */
  function InterceptorNotifications(status: nat): (r: nat)
    ensures r <= 1
    ensures r == 1 <==> status >= 400
  {
    (if status != 0 && 400 <= status < 500 then 1 else 0) + (if status != 0 && status >= 500 then 1 else 0)
  }

  /** The global handler shows a notification for a HIGH or CRITICAL error. */
  predicate GlobalNotifies(error: AppError) {
    error.severity == Critical || error.severity == High
  }

  /**
   * A relation between the two notification rules, not a claim about which
   * handler sees which value at run time: every status whose classified error
   * meets the global handler's severity rule also meets the interceptor's
   * status rule.
   */
  lemma GlobalNotifyImpliesInterceptor(status: nat, statusText: string, url: Option<string>, message: string)
    requires GlobalNotifies(HandleHttpError(status, statusText, url, message))
    ensures InterceptorNotifications(status) == 1
  {
  }
}
