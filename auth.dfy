/** The API-key gates (server/src/middleware/auth.ts). A gate's outcome is
    the argument it passes to `next`: None to continue, an error to fail. */
module Auth {
  import opened Common
  import opened Errors

  /** `authenticateApiKey`: `configured` is `config.apiKey`, `header` the
      `x-api-key` request header. */
  function AuthenticateApiKey(configured: Option<string>, header: Option<string>): (next: Option<AppError>)
    ensures next.None? <==> !Truthy(configured) || header == configured
    ensures Truthy(configured) && !Truthy(header) ==>
      next == Some(AuthenticationError(Some("API key required")))
    ensures Truthy(configured) && Truthy(header) && header != configured ==>
      next == Some(AuthenticationError(Some("Invalid API key")))
    ensures next.Some? ==> next.value.status == 401 && next.value.kind == Authentication
  {
    if !Truthy(configured) then None
    else if !Truthy(header) then Some(AuthenticationError(Some("API key required")))
    else if header != configured then Some(AuthenticationError(Some("Invalid API key")))
    else None
  }

  /** What `optionalAuth` does: it always continues; whether the request
      counts as authenticated is only logged. */
  datatype OptionalOutcome = OptionalOutcome(next: Option<AppError>, authenticated: bool)

  function OptionalAuth(configured: Option<string>, header: Option<string>): (r: OptionalOutcome)
    ensures r.next.None?
    ensures r.authenticated <==> Truthy(header) && header == configured
  {
    OptionalOutcome(None, Truthy(header) && header == configured)
  }

  /** A request optional authentication accepts as authenticated also
      passes the strict gate, and with no key configured every request
      passes the strict gate. */
  lemma OptionalAgreesWithStrict(configured: Option<string>, header: Option<string>)
    ensures OptionalAuth(configured, header).authenticated ==> AuthenticateApiKey(configured, header).None?
    ensures !Truthy(configured) ==> AuthenticateApiKey(configured, header).None?
  {
  }

  /** With a key configured, an absent or empty header is always refused,
      whatever the key. */
  lemma MissingHeaderRefused(configured: string)
    requires configured != ""
    ensures AuthenticateApiKey(Some(configured), None).Some?
    ensures AuthenticateApiKey(Some(configured), Some("")).Some?
  {
  }
}
