/** The application's error taxonomy (chatbot-backend/src/utils/errors.ts):
    the base AppError and its nine subclasses, each fixing a status, a
    machine-readable code and sometimes a message prefix. A subclass is a
    `kind`; `Thrown` is anything a handler may receive. */
module Errors {
  import opened Common

  datatype ErrorKind =
    | Generic          // a plain AppError
    | Validation
    | Authentication
    | Authorization
    | NotFound
    | GeminiApi
    | GeminiSafety
    | Database
    | Timeout
    | RateLimit

  /** One entry of a validation failure's details: a joined path and a message. */
  datatype IssueDetail = IssueDetail(path: string, message: string)

  /** The `details` payload of an error. */
  datatype Detail =
    | Issues(items: seq<IssueDetail>)  // the validation issue list (an array, so truthy)
    | Cause(summary: string)           // a caught error or another object (truthy)
    | Falsy                            // a falsy value (null, 0, "") passed as details

  /** JavaScript truthiness of `err.details`. */
  predicate DetailShown(d: Option<Detail>) {
    d.Some? && !d.value.Falsy?
  }

  datatype AppError = AppError(
    kind: ErrorKind,
    message: string,
    status: int,
    code: Option<string>,
    details: Option<Detail>,
    isOperational: bool)

  /** A thrown value: an AppError instance, or anything else. For the latter,
      `isError` says whether it is an `Error` instance, `message` is what
      `.message` yields, and `status`/`isOperational` say whether such
      properties are defined on it. */
  datatype Thrown =
    | App(err: AppError)
    | Other(
        isError: bool,
        message: Option<string>,
        status: Option<int>,
        isOperational: Option<bool>,
        code: Option<string>,
        details: Option<Detail>)

  /** `new Error(message)`. */
  function PlainError(message: string): (t: Thrown)
    ensures t.Other? && t.isError && t.message == Some(message)
    ensures t.status.None? && t.isOperational.None?
  {
    Other(true, Some(message), None, None, None, None)
  }

  function StatusOf(k: ErrorKind): int {
    match k
    case Generic => 500
    case Validation => 400
    case Authentication => 401
    case Authorization => 403
    case NotFound => 404
    case GeminiApi => 502
    case GeminiSafety => 422
    case Database => 500
    case Timeout => 408
    case RateLimit => 429
  }

  function CodeOf(k: ErrorKind): string {
    match k
    case Generic => ""
    case Validation => "VALIDATION_ERROR"
    case Authentication => "AUTHENTICATION_ERROR"
    case Authorization => "AUTHORIZATION_ERROR"
    case NotFound => "NOT_FOUND"
    case GeminiApi => "GEMINI_API_ERROR"
    case GeminiSafety => "SAFETY_FILTER_TRIGGERED"
    case Database => "DATABASE_ERROR"
    case Timeout => "TIMEOUT_ERROR"
    case RateLimit => "RATE_LIMIT_EXCEEDED"
  }

  /** An error built by one of the subclass constructors carries its kind's
      status and code and is operational. */
  predicate WellFormed(e: AppError) {
    e.kind != Generic ==>
      e.status == StatusOf(e.kind) && e.code == Some(CodeOf(e.kind)) && e.isOperational
  }

  /** The kind a machine-readable code stands for. */
  function KindOfCode(code: string): (k: Option<ErrorKind>)
    ensures k.Some? ==> k.value != Generic && CodeOf(k.value) == code
    ensures k.None? ==> forall j :: j != Generic ==> CodeOf(j) != code
  {
    if code == "VALIDATION_ERROR" then Some(Validation)
    else if code == "AUTHENTICATION_ERROR" then Some(Authentication)
    else if code == "AUTHORIZATION_ERROR" then Some(Authorization)
    else if code == "NOT_FOUND" then Some(NotFound)
    else if code == "GEMINI_API_ERROR" then Some(GeminiApi)
    else if code == "SAFETY_FILTER_TRIGGERED" then Some(GeminiSafety)
    else if code == "DATABASE_ERROR" then Some(Database)
    else if code == "TIMEOUT_ERROR" then Some(Timeout)
    else if code == "RATE_LIMIT_EXCEEDED" then Some(RateLimit)
    else None
  }

  /** No two subclasses share a code: the code alone recovers the kind. */
  lemma CodeIdentifiesKind(a: AppError, b: AppError)
    requires WellFormed(a) && WellFormed(b)
    requires a.kind != Generic && b.kind != Generic
    requires a.code == b.code
    ensures a.kind == b.kind
    ensures KindOfCode(a.code.value) == Some(a.kind)
  {
    match a.kind
    case Validation =>
    case Authentication =>
    case Authorization =>
    case NotFound =>
    case GeminiApi =>
    case GeminiSafety =>
    case Database =>
    case Timeout =>
    case RateLimit =>
  }

  /** `new AppError(message, status?, code?, details?, isOperational?)`. */
  function NewAppError(
    message: string,
    status: Option<int>,
    code: Option<string>,
    details: Option<Detail>,
    isOperational: Option<bool>): (e: AppError)
    ensures e.kind == Generic && e.message == message && e.code == code && e.details == details
    ensures status.None? ==> e.status == 500
    ensures status.Some? ==> e.status == status.value
    ensures isOperational.None? ==> e.isOperational
    ensures isOperational.Some? ==> e.isOperational == isOperational.value
  {
    AppError(Generic, message, status.GetOr(500), code, details, isOperational.GetOr(true))
  }

  /** The shape shared by every subclass constructor. */
  function Subclass(kind: ErrorKind, message: string, details: Option<Detail>): (e: AppError)
    requires kind != Generic
    ensures WellFormed(e) && e.kind == kind && e.message == message && e.details == details
  {
    AppError(kind, message, StatusOf(kind), Some(CodeOf(kind)), details, true)
  }

  function ValidationError(message: string, details: Option<Detail>): (e: AppError)
    ensures WellFormed(e) && e.kind == Validation
    ensures e.status == 400 && e.code == Some("VALIDATION_ERROR")
    ensures e.message == message && e.details == details
  {
    Subclass(Validation, message, details)
  }

  function AuthenticationError(message: Option<string>): (e: AppError)
    ensures WellFormed(e) && e.kind == Authentication
    ensures e.status == 401 && e.code == Some("AUTHENTICATION_ERROR")
    ensures e.message == message.GetOr("Authentication required") && e.details.None?
  {
    Subclass(Authentication, message.GetOr("Authentication required"), None)
  }

  function AuthorizationError(message: Option<string>): (e: AppError)
    ensures WellFormed(e) && e.kind == Authorization
    ensures e.status == 403 && e.code == Some("AUTHORIZATION_ERROR")
    ensures e.message == message.GetOr("Access forbidden") && e.details.None?
  {
    Subclass(Authorization, message.GetOr("Access forbidden"), None)
  }

  function NotFoundError(resource: Option<string>): (e: AppError)
    ensures WellFormed(e) && e.kind == NotFound
    ensures e.status == 404 && e.code == Some("NOT_FOUND")
    ensures e.message == resource.GetOr("Resource") + " not found" && e.details.None?
  {
    Subclass(NotFound, resource.GetOr("Resource") + " not found", None)
  }

  const GeminiPrefix: string := "Gemini API Error: "

  function GeminiAPIError(message: string, details: Option<Detail>): (e: AppError)
    ensures WellFormed(e) && e.kind == GeminiApi
    ensures e.status == 502 && e.code == Some("GEMINI_API_ERROR")
    ensures e.message == GeminiPrefix + message && e.details == details
  {
    Subclass(GeminiApi, GeminiPrefix + message, details)
  }

  function GeminiSafetyError(message: Option<string>, details: Option<Detail>): (e: AppError)
    ensures WellFormed(e) && e.kind == GeminiSafety
    ensures e.status == 422 && e.code == Some("SAFETY_FILTER_TRIGGERED")
    ensures e.message == message.GetOr("Content blocked by safety filters") && e.details == details
  {
    Subclass(GeminiSafety, message.GetOr("Content blocked by safety filters"), details)
  }

  const DatabasePrefix: string := "Database Error: "

  function DatabaseError(message: string, details: Option<Detail>): (e: AppError)
    ensures WellFormed(e) && e.kind == Database
    ensures e.status == 500 && e.code == Some("DATABASE_ERROR")
    ensures e.message == DatabasePrefix + message && e.details == details
  {
    Subclass(Database, DatabasePrefix + message, details)
  }

  function TimeoutError(message: Option<string>): (e: AppError)
    ensures WellFormed(e) && e.kind == Timeout
    ensures e.status == 408 && e.code == Some("TIMEOUT_ERROR")
    ensures e.message == message.GetOr("Request timeout") && e.details.None?
  {
    Subclass(Timeout, message.GetOr("Request timeout"), None)
  }

  function RateLimitError(message: Option<string>): (e: AppError)
    ensures WellFormed(e) && e.kind == RateLimit
    ensures e.status == 429 && e.code == Some("RATE_LIMIT_EXCEEDED")
    ensures e.message == message.GetOr("Too many requests") && e.details.None?
  {
    Subclass(RateLimit, message.GetOr("Too many requests"), None)
  }

  /** A wrapped database failure: the query's own message as the cause. */
  function DbFailure(message: string, cause: string): (t: Thrown)
    ensures t.App? && t.err.kind == Database && t.err.status == 500
    ensures t.err.message == DatabasePrefix + message
  {
    App(DatabaseError(message, Some(Cause(cause))))
  }
}
