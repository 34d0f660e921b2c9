/** `AuthProvider`: the React session (`token`, `user`, `isLoading`) kept
    next to the service's browser store, with its login, logout, user
    refresh and start-up rehydration. */
module AuthProvider {
  import opened JsValues
  import opened Fetch
  import opened Auth

  datatype Session = Session(token: Option<string>, user: Option<User>, isLoading: bool)

  /** The provider's session together with the browser store. */
  datatype World = World(session: Session, store: Store)

  /** The state on first render: nothing known yet, loading. */
  const InitialSession := Session(None, None, true)

  /** `Boolean(token && authService.isTokenValid(token))`. */
  function IsAuthenticated(s: Session, host: Host, nowMs: int): (r: bool)
    ensures r <==> Truthy(s.token) && IsTokenValid(s.token.value, host, nowMs)
  {
    Truthy(s.token) && IsTokenValid(s.token.value, host, nowMs)
  }

  /** The session held in React agrees with the token cookie. */
  predicate TokenMatchesCookie(w: World) {
    w.session.token == GetToken(w.store)
  }

  /** What the provider's `login` does: on success the session takes the
      token and the user; on failure the error is rethrown and the session
      is left as it was. */
  datatype LoginOutcome = SignedIn(world: World) | Rethrown(message: string, world: World)

  function Login(w: World, host: Host, nowMs: int, newToken: string, reply: Reply<Response<User>>): (r: LoginOutcome)
    ensures Auth.Login(w.store, host, nowMs, newToken, reply).LoggedIn? <==> r.SignedIn?
    ensures r.SignedIn? ==> r.world.session.token == Some(newToken) && r.world.session.user.Some?
    ensures r.SignedIn? ==> r.world.store.cookie == Some(newToken)
    ensures r.Rethrown? ==> r.world.session == w.session && GetToken(r.world.store).None? && r.world.store.userSlot.None?
    ensures r.Rethrown? ==> r.message == "Failed to fetch user information"
  {
    match Auth.Login(w.store, host, nowMs, newToken, reply)
    case LoggedIn(user, store) =>
      LoginKeepsToken(w.store, host, nowMs, newToken, reply);
      SignedIn(World(w.session.(token := Some(newToken), user := Some(user)), store))
    case LoginFailed(message, store) => Rethrown(message, World(w.session, store))
  }

  /** A successful sign-in with a non-empty token leaves the session and
      the cookie agreeing on it. */
  lemma LoginSyncsCookie(w: World, host: Host, nowMs: int, newToken: string, reply: Reply<Response<User>>)
    requires newToken != ""
    requires Login(w, host, nowMs, newToken, reply).SignedIn?
    ensures TokenMatchesCookie(Login(w, host, nowMs, newToken, reply).world)
  {
  }

  /** `logout`: the service forgets the session and sends the window to
      sign in; the provider forgets it too. */
  function Logout(w: World): (r: World)
    ensures r.session.token.None? && r.session.user.None?
    ensures r.session.isLoading == w.session.isLoading
    ensures r.store == Auth.Logout(w.store)
    ensures TokenMatchesCookie(r)
  {
    World(w.session.(token := None, user := None), Auth.Logout(w.store))
  }

  /** `refreshUser`: a user that comes back replaces the session's user;
      otherwise the session's user stays. */
  function RefreshUser(w: World, host: Host, nowMs: int, reply: Reply<Response<User>>): (r: World)
    ensures r.session.token == w.session.token
    ensures r.store == FetchUserInfo(w.store, host, nowMs, reply).store
    ensures r.session.user == if FetchUserInfo(w.store, host, nowMs, reply).value.Some?
                              then FetchUserInfo(w.store, host, nowMs, reply).value
                              else w.session.user
  {
    var fetched := FetchUserInfo(w.store, host, nowMs, reply);
    if fetched.value.Some? then World(w.session.(user := fetched.value), fetched.store)
    else World(w.session, fetched.store)
  }

  /** `initializeAuth` on mount, given the browser store and the reply the
      user lookup would get. A stored valid token is adopted, with the
      cached user or else the looked-up one; anything else clears the
      store. Loading ends either way. */
  function InitializeAuth(store: Store, host: Host, nowMs: int, reply: Reply<Response<User>>): (w: World)
    ensures !w.session.isLoading
    ensures !IsAuthenticated(InitialSession.(token := GetToken(store)), host, nowMs) ==>
      w.session.token.None? && w.session.user.None? && GetToken(w.store).None? && w.store.userSlot.None?
    ensures IsAuthenticated(InitialSession.(token := GetToken(store)), host, nowMs) ==>
      w.session.token == GetToken(store)
    ensures IsAuthenticated(InitialSession.(token := GetToken(store)), host, nowMs) && GetUser(store, host).value.Some? ==>
      w.session.user == GetUser(store, host).value && w.store == store
    ensures IsAuthenticated(InitialSession.(token := GetToken(store)), host, nowMs) && GetUser(store, host).value.None? ==>
      w.session.user == FetchUserInfo(GetUser(store, host).store, host, nowMs, reply).value
  {
    var storedToken := GetToken(store);
    var storedUser := GetUser(store, host);
    if storedToken.Some? && IsTokenValid(storedToken.value, host, nowMs) then
      if storedUser.value.Some? then
        World(Session(storedToken, storedUser.value, false), storedUser.store)
      else
        var fetched := FetchUserInfo(storedUser.store, host, nowMs, reply);
        World(Session(storedToken, fetched.value, false), fetched.store)
    else
      World(Session(None, None, false), RemoveToken(storedUser.store))
  }

  /** With a cached user the start-up makes no request: the outcome does
      not depend on what the user lookup would have answered. */
  lemma CachedUserNoFetch(store: Store, host: Host, nowMs: int, reply1: Reply<Response<User>>, reply2: Reply<Response<User>>)
    requires GetToken(store).Some? && IsTokenValid(GetToken(store).value, host, nowMs)
    requires GetUser(store, host).value.Some?
    ensures InitializeAuth(store, host, nowMs, reply1) == InitializeAuth(store, host, nowMs, reply2)
  {
  }

  /** Start-up leaves the provider authenticated exactly when the stored
      token was valid, and then the session and the cookie agree unless the
      user lookup was answered with 401 or 403, which clears the cookie
      while the session keeps the token. */
  lemma InitializeAuthAgrees(store: Store, host: Host, nowMs: int, reply: Reply<Response<User>>)
    ensures var w := InitializeAuth(store, host, nowMs, reply);
      && (IsAuthenticated(w.session, host, nowMs) <==> GetToken(store).Some? && IsTokenValid(GetToken(store).value, host, nowMs))
      && (!(reply.Responded? && IsAuthError(reply.response.status)) ==> TokenMatchesCookie(w))
  {
  }

  /** The case the previous lemma sets aside: a valid token without a
      cached user whose lookup gets 401 leaves the provider authenticated
      with a cookie that is gone. */
  lemma InitializeAuthDesync(store: Store, host: Host, nowMs: int, statusText: string)
    requires GetToken(store).Some? && IsTokenValid(GetToken(store).value, host, nowMs)
    requires !Truthy(store.userSlot)
    ensures var w := InitializeAuth(store, host, nowMs, Responded(Response(401, statusText, None)));
      && IsAuthenticated(w.session, host, nowMs)
      && GetToken(w.store).None?
      && w.store.location == Some(SignInPath)
  {
  }
}
