/** The OAuth callback page (`src/app/auth/callback/page.tsx`): the
    decision `handleCallback` takes from the `token` and `error` query
    parameters and the provider's login. */
module AuthCallback {
  import opened JsValues
  import opened Fetch
  import opened Auth
  import opened AuthProvider

  /** What the page ends up showing: an error message, or a navigation. */
  datatype View = ShowError(message: string) | Navigated(path: string)

  datatype Callback = Callback(view: View, world: World, loginAttempted: bool)

  /** `handleCallback` given `searchParams.get('token')`,
      `searchParams.get('error')` and the reply the login's user lookup
      gets. An error parameter wins over a token; without either there is
      nothing to log in with; a login that throws is reported generically. */
  function HandleCallback(w: World, host: Host, nowMs: int, token: Option<string>, error: Option<string>, reply: Reply<Response<User>>): (r: Callback)
    ensures Truthy(error) ==> r == Callback(ShowError("Authentication failed: " + error.value), w, false)
    ensures !Truthy(error) && !Truthy(token) ==> r == Callback(ShowError("No authentication token received"), w, false)
    ensures r.loginAttempted <==> !Truthy(error) && Truthy(token)
    ensures r.loginAttempted ==> (r.view.Navigated? <==> AuthProvider.Login(w, host, nowMs, token.value, reply).SignedIn?)
    ensures r.loginAttempted ==> r.world == AuthProvider.Login(w, host, nowMs, token.value, reply).world
    ensures r.view.ShowError? && r.loginAttempted ==> r.view.message == "Failed to complete authentication"
    ensures r.view.Navigated? ==> r.view.path == "/"
  {
    if Truthy(error) then Callback(ShowError("Authentication failed: " + error.value), w, false)
    else if !Truthy(token) then Callback(ShowError("No authentication token received"), w, false)
    else match AuthProvider.Login(w, host, nowMs, token.value, reply)
      case SignedIn(after) => Callback(Navigated("/"), after, true)
      case Rethrown(_, after) => Callback(ShowError("Failed to complete authentication"), after, true)
  }

  /** The page only navigates home with a signed-in session whose token is
      the one received and is what the cookie holds; the token's own expiry
      is not checked on this path. */
  lemma NavigatesOnlySignedIn(w: World, host: Host, nowMs: int, token: Option<string>, error: Option<string>, reply: Reply<Response<User>>)
    requires HandleCallback(w, host, nowMs, token, error, reply).view.Navigated?
    ensures var r := HandleCallback(w, host, nowMs, token, error, reply);
      && token.Some? && token.value != ""
      && r.world.session.token == token
      && r.world.session.user.Some?
      && TokenMatchesCookie(r.world)
  {
    LoginSyncsCookie(w, host, nowMs, token.value, reply);
  }

  /** A failed callback leaves the provider's session as it found it. */
  lemma FailureKeepsSession(w: World, host: Host, nowMs: int, token: Option<string>, error: Option<string>, reply: Reply<Response<User>>)
    requires HandleCallback(w, host, nowMs, token, error, reply).view.ShowError?
    ensures HandleCallback(w, host, nowMs, token, error, reply).world.session == w.session
  {
  }
}
