/** The API server's error middleware (server/src/middleware/errorHandler.ts):
    the same answers as the chatbot backend's, but an error is recognised by
    its defined `status` and `isOperational` fields rather than by its class,
    and is then passed through whether or not it is operational. */
module ServerErrors {
  import opened Common
  import opened Errors
  import opened BackendErrors

  /** `status !== undefined && isOperational !== undefined`. */
  function LooksLikeAppError(e: Thrown): (b: bool)
    ensures e.App? ==> b
    ensures e.Other? ==> (b <==> e.status.Some? && e.isOperational.Some?)
  {
    e.App? || (e.status.Some? && e.isOperational.Some?)
  }

  function StatusField(e: Thrown): int
    requires LooksLikeAppError(e)
  {
    if e.App? then e.err.status else e.status.value
  }

  function CodeField(e: Thrown): Option<string> {
    if e.App? then e.err.code else e.code
  }

  function DetailsField(e: Thrown): Option<Detail> {
    if e.App? then e.err.details else e.details
  }

  /** `errorHandler(err)`. */
  function HandleError(e: Thrown, production: bool): (r: ErrorReply)
    ensures LooksLikeAppError(e) ==>
      r == ErrorReply(StatusField(e), ErrorBody(MessageOf(e), CodeField(e), Shown(DetailsField(e))))
    ensures !LooksLikeAppError(e) ==> r == Internal(e, production)
  {
    if LooksLikeAppError(e) then
      ErrorReply(StatusField(e), ErrorBody(MessageOf(e), CodeField(e), Shown(DetailsField(e))))
    else Internal(e, production)
  }

  /** The two middlewares agree on operational AppErrors and on errors that
      neither recognises. */
  lemma HandlersAgree(e: Thrown, production: bool)
    requires (e.App? && e.err.isOperational) || !LooksLikeAppError(e)
    ensures HandleError(e, production) == BackendErrors.HandleError(e, production)
  {
  }

  /** They disagree on a non-operational AppError with a status other than
      500: this middleware keeps its status and code, the backend's answers
      500 INTERNAL_ERROR. */
  lemma HandlersDisagreeOnNonOperational(e: AppError, production: bool)
    requires !e.isOperational && e.status != 500
    ensures HandleError(App(e), production).status == e.status
    ensures BackendErrors.HandleError(App(e), production).status == 500
    ensures HandleError(App(e), production) != BackendErrors.HandleError(App(e), production)
  {
  }

  /** A plain object carrying `status` and `isOperational`, never an
      AppError, is still answered with its own status. */
  lemma DuckTypedObjectKeepsStatus(status: int, operational: bool, production: bool)
    ensures var e := Other(false, None, Some(status), Some(operational), None, None);
      HandleError(e, production).status == status && BackendErrors.HandleError(e, production).status == 500
  {
  }

  /** `notFoundHandler` is the backend's, text for text. */
  function NotFoundRoute(verb: string, path: string): (r: ErrorReply)
    ensures r.status == 404 && r.body.code == Some("NOT_FOUND")
    ensures r.body.message == Some("Route " + verb + " " + path + " not found")
  {
    BackendErrors.NotFoundRoute(verb, path)
  }
}
