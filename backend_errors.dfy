/** The chatbot backend's error middleware
    (chatbot-backend/src/middleware/errorHandler.ts): every error that
    reaches it becomes a status and a JSON body. */
module BackendErrors {
  import opened Common
  import opened Errors

  /** The body `{ status: 'error', message, code, details? }`; an absent
      `message` or `code` is left out of the JSON. */
  datatype ErrorBody = ErrorBody(message: Option<string>, code: Option<string>, details: Option<Detail>)

  datatype ErrorReply = ErrorReply(status: int, body: ErrorBody)

  const InternalMessage: string := "Internal server error"
  const InternalCode: string := "INTERNAL_ERROR"

  /** `err.message` of anything thrown. */
  function MessageOf(e: Thrown): (m: Option<string>)
    ensures e.App? ==> m == Some(e.err.message)
    ensures e.Other? ==> m == e.message
  {
    match e
    case App(err) => Some(err.message)
    case Other(_, message, _, _, _, _) => message
  }

  /** `...(details && { details })`: only truthy details are shown. */
  function Shown(d: Option<Detail>): (r: Option<Detail>)
    ensures r.Some? <==> DetailShown(d)
    ensures r.Some? ==> r == d
  {
    if DetailShown(d) then d else None
  }

  /** The 500 answer to an error the handler does not pass through; its
      message is hidden in production. */
  function Internal(e: Thrown, production: bool): (r: ErrorReply)
    ensures r.status == 500 && r.body.code == Some(InternalCode) && r.body.details.None?
    ensures production ==> r.body.message == Some(InternalMessage)
    ensures !production ==> r.body.message == MessageOf(e)
  {
    ErrorReply(500, ErrorBody(if production then Some(InternalMessage) else MessageOf(e), Some(InternalCode), None))
  }

  /** `errorHandler(err)`: an operational AppError keeps its own status,
      message and code; anything else is an internal error. */
  function HandleError(e: Thrown, production: bool): (r: ErrorReply)
    ensures e.App? && e.err.isOperational ==>
      r == ErrorReply(e.err.status, ErrorBody(Some(e.err.message), e.err.code, Shown(e.err.details)))
    ensures !(e.App? && e.err.isOperational) ==> r == Internal(e, production)
  {
    if e.App? && e.err.isOperational then
      ErrorReply(e.err.status, ErrorBody(Some(e.err.message), e.err.code, Shown(e.err.details)))
    else Internal(e, production)
  }

  /** Every error a subclass constructor builds is answered with its kind's
      status and code. */
  lemma SubclassErrorsKeepStatus(e: AppError, production: bool)
    requires WellFormed(e) && e.kind != Generic
    ensures HandleError(App(e), production).status == StatusOf(e.kind)
    ensures HandleError(App(e), production).body.code == Some(CodeOf(e.kind))
    ensures HandleError(App(e), production).body.message == Some(e.message)
  {
  }

  /** A non-operational AppError is answered like an unknown error. */
  lemma NonOperationalIsInternal(e: AppError, production: bool)
    requires !e.isOperational
    ensures HandleError(App(e), production).status == 500
    ensures HandleError(App(e), production).body.code == Some(InternalCode)
    ensures production ==> HandleError(App(e), production).body.message == Some(InternalMessage)
  {
  }

  /** A validation failure shows its issue list. */
  lemma ValidationShowsIssues(issues: seq<IssueDetail>, production: bool)
    ensures HandleError(App(ValidationError("Validation failed", Some(Issues(issues)))), production)
      == ErrorReply(400, ErrorBody(Some("Validation failed"), Some("VALIDATION_ERROR"), Some(Issues(issues))))
  {
  }

  /** `notFoundHandler`: 404 for a route nothing matched. */
  function NotFoundRoute(verb: string, path: string): (r: ErrorReply)
    ensures r.status == 404 && r.body.code == Some("NOT_FOUND") && r.body.details.None?
    ensures r.body.message == Some("Route " + verb + " " + path + " not found")
  {
    ErrorReply(404, ErrorBody(Some("Route " + verb + " " + path + " not found"), Some("NOT_FOUND"), None))
  }

  /** Where `asyncHandler(fn)` sends a handler's outcome: a resolved handler
      has answered by itself; a rejection goes to `next` and so to the
      error middleware. */
  function AsyncHandler<R>(outcome: Result<R, Thrown>): (next: Option<Thrown>)
    ensures next.None? <==> outcome.Ok?
    ensures outcome.Err? ==> next == Some(outcome.error)
  {
    if outcome.Err? then Some(outcome.error) else None
  }

  /** The answer a request gets when its handler runs under `asyncHandler`:
      the handler's own reply, or the error middleware's. */
  function Respond<R>(outcome: Result<R, Thrown>, production: bool): (r: Result<R, ErrorReply>)
    ensures outcome.Ok? ==> r == Ok(outcome.value)
    ensures outcome.Err? ==> r == Err(HandleError(outcome.error, production))
  {
    match AsyncHandler(outcome)
    case None => Ok(outcome.value)
    case Some(e) => Err(HandleError(e, production))
  }
}
