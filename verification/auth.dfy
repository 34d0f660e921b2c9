/** `AuthService` of `src/lib/auth.ts`: the token cookie and the cached user
    in local storage, JWT expiry checking, authenticated requests with
    eviction on 401/403, the user lookup, login and logout.

    The browser stores are one `Store` value threaded through the
    operations. `JSON.parse`, `atob` and `JSON.stringify` are functions of a
    `Host`; the clock is an argument in milliseconds; a request's outcome
    is an input `Reply`. */
module Auth {
  import opened JsValues
  import opened JsStrings
  import opened Fetch

  const TokenKey := "jarvis_token"
  const UserKey := "jarvis_user"
  const SignInPath := "/auth/signin"

  /** The fallback API base URL of the auth calls when the environment sets
      none; it differs from both other defaults of the application. */
  const AuthDefaultApiUrl := "http://localhost:8001"

  datatype UserSettings = UserSettings(queryLimit: int, queriesUsed: int, resetDate: string)

  datatype User = User(
    id: string,
    email: string,
    name: string,
    picture: Option<string>,
    settings: UserSettings,
    createdAt: string,
    lastLogin: Option<string>)

  /** The one claim of a JWT payload the client reads; `None` when the
      payload has no `exp`. */
  datatype JwtPayload = JwtPayload(exp: Option<real>)

  /** What `JSON.parse` makes of a stored user string: it throws, or yields
      `null`, or yields a user record. */
  datatype ParsedUser = Unparsable | NullUser | ParsedAs(user: User)

  /** The library calls the service makes:
      `decodePayload(p)` is `JSON.parse(atob(p))`, `None` when either throws
      or the result has no fields; `parseUser` is `JSON.parse` on the stored
      user string; `stringifyUser` is `JSON.stringify`. */
  datatype Host = Host(
    decodePayload: string -> Option<JwtPayload>,
    parseUser: string -> ParsedUser,
    stringifyUser: User -> string)

  /** `JSON.parse(JSON.stringify(u))` gives `u` back, and the text of an
      object is never empty. */
  ghost predicate JsonRoundTrips(host: Host) {
    forall u :: host.stringifyUser(u) != "" && host.parseUser(host.stringifyUser(u)) == ParsedAs(u)
  }

  /** The browser state the service touches: the `jarvis_token` cookie, the
      `jarvis_user` local-storage slot, and the page the window was sent to
      (`None` while it stays put). */
  datatype Store = Store(cookie: Option<string>, userSlot: Option<string>, location: Option<string>)

  /** A value read from the store together with the store after the read. */
  datatype Read<T> = Read(value: Option<T>, store: Store)

  /** `getToken`: the cookie, with an empty cookie read as none. */
  function GetToken(st: Store): (r: Option<string>)
    ensures r.Some? <==> Truthy(st.cookie)
    ensures r.Some? ==> r.value == st.cookie.value && r.value != ""
  {
    if Truthy(st.cookie) then st.cookie else None
  }

  /** `setToken`. */
  function SetToken(st: Store, token: string): (r: Store)
    ensures r.userSlot == st.userSlot && r.location == st.location
  {
    st.(cookie := Some(token))
  }

  /** A stored token reads back as itself; the empty token reads back as
      none. */
  lemma SetTokenRoundTrip(st: Store, token: string)
    ensures GetToken(SetToken(st, token)) == if token == "" then None else Some(token)
  {
  }

  /** `removeToken`: the cookie and the cached user both go. */
  function RemoveToken(st: Store): (r: Store)
    ensures GetToken(r).None?
    ensures r.userSlot.None?
    ensures r.location == st.location
  {
    st.(cookie := None, userSlot := None)
  }

  /** `setUser`. */
  function SetUser(st: Store, user: User, host: Host): (r: Store)
    ensures r.cookie == st.cookie && r.location == st.location
    ensures r.userSlot.Some?
  {
    st.(userSlot := Some(host.stringifyUser(user)))
  }

  /** `getUser`: the parsed cached user; a cached string that does not parse
      is removed and reads as none. */
  function GetUser(st: Store, host: Host): (r: Read<User>)
    ensures r.store.cookie == st.cookie && r.store.location == st.location
    ensures !Truthy(st.userSlot) ==> r.value.None? && r.store == st
    ensures Truthy(st.userSlot) && host.parseUser(st.userSlot.value).Unparsable? ==>
      r.value.None? && r.store.userSlot.None?
    ensures r.value.Some? <==> Truthy(st.userSlot) && host.parseUser(st.userSlot.value).ParsedAs?
    ensures r.value.Some? ==> r.store == st && r.value.value == host.parseUser(st.userSlot.value).user
  {
    if !Truthy(st.userSlot) then Read(None, st)
    else match host.parseUser(st.userSlot.value)
      case Unparsable => Read(None, st.(userSlot := None))
      case NullUser => Read(None, st)
      case ParsedAs(u) => Read(Some(u), st)
  }

  /** A user stored with `setUser` reads back unchanged. */
  lemma SetUserRoundTrip(st: Store, user: User, host: Host)
    requires JsonRoundTrips(host)
    ensures GetUser(SetUser(st, user, host), host) == Read(Some(user), SetUser(st, user, host))
  {
    assert host.stringifyUser(user) != "" && host.parseUser(host.stringifyUser(user)) == ParsedAs(user);
  }

  /** Reading the cache twice is reading it once: the cleanup of an
      unparsable entry happens on the first read. */
  lemma GetUserSettles(st: Store, host: Host)
    ensures var first := GetUser(st, host);
            GetUser(first.store, host) == first
  {
  }

  /** `isTokenValid` at clock reading `nowMs`: the token must have exactly
      three dot-separated segments, the middle one must decode, and its
      `exp` must be present, non-zero and later than now in seconds. */
  function IsTokenValid(token: string, host: Host, nowMs: int): (valid: bool)
    ensures valid ==> |Split(token, '.')| == 3
    ensures valid ==> var p := host.decodePayload(Split(token, '.')[1]);
      p.Some? && p.value.exp.Some? && p.value.exp.value != 0.0 && p.value.exp.value > nowMs as real / 1000.0
  {
    var parts := Split(token, '.');
    if |parts| != 3 then false
    else match host.decodePayload(parts[1])
      case None => false
      case Some(payload) =>
        payload.exp.Some? && payload.exp.value != 0.0 && payload.exp.value > nowMs as real / 1000.0
  }

  /** A token without exactly two dots is never valid. */
  lemma WrongShapeInvalid(token: string, host: Host, nowMs: int)
    requires Count(token, '.') != 2
    ensures !IsTokenValid(token, host, nowMs)
  {
    SplitCount(token, '.');
  }

  /** A token `header.payload.signature` built from dot-free segments is
      valid exactly when its payload decodes to a non-zero `exp` later than
      now; the header and signature are not checked at all. */
  lemma AssembledTokenValid(header: string, payload: string, signature: string, host: Host, nowMs: int)
    requires '.' !in header && '.' !in payload && '.' !in signature
    ensures var p := host.decodePayload(payload);
      IsTokenValid(header + "." + payload + "." + signature, host, nowMs) <==>
        p.Some? && p.value.exp.Some? && p.value.exp.value != 0.0 && p.value.exp.value > nowMs as real / 1000.0
  {
    var parts := [header, payload, signature];
    assert Join(parts, '.') == header + "." + payload + "." + signature by {
      assert Join(parts[1..], '.') == payload + "." + signature by {
        assert parts[1..][1..] == [signature];
      }
    }
    SplitJoin(parts, '.');
  }

  /** Validity only runs out: a token valid now was valid at every earlier
      clock reading. */
  lemma ValidityRunsOut(token: string, host: Host, earlier: int, later: int)
    requires earlier <= later
    ensures IsTokenValid(token, host, later) ==> IsTokenValid(token, host, earlier)
  {
  }

  /** `isAuthenticated`: a stored token that is valid now. */
  function IsAuthenticated(st: Store, host: Host, nowMs: int): (r: bool)
    ensures r <==> GetToken(st).Some? && IsTokenValid(GetToken(st).value, host, nowMs)
    ensures r ==> Truthy(st.cookie)
  {
    match GetToken(st)
    case None => false
    case Some(token) => IsTokenValid(token, host, nowMs)
  }

  /** `getAuthHeaders`: always JSON content, plus the bearer token when a
      valid one is stored. */
  function GetAuthHeaders(st: Store, host: Host, nowMs: int): (h: Headers)
    ensures Lookup(h, "Content-Type") == Some("application/json")
    ensures IsAuthenticated(st, host, nowMs) ==> Lookup(h, "Authorization") == Some("Bearer " + st.cookie.value)
    ensures !IsAuthenticated(st, host, nowMs) ==> Lookup(h, "Authorization").None?
    ensures UniqueNames(h)
  {
    if IsAuthenticated(st, host, nowMs) then
      [("Authorization", "Bearer " + st.cookie.value), ("Content-Type", "application/json")]
    else
      [("Content-Type", "application/json")]
  }

  /** The headers `authenticatedFetch` sends: `{...getAuthHeaders(),
      ...options.headers}`. */
  function RequestHeaders(st: Store, host: Host, nowMs: int, callerHeaders: Headers): (h: Headers)
    ensures |h| >= |GetAuthHeaders(st, host, nowMs)|
    ensures forall i :: 0 <= i < |GetAuthHeaders(st, host, nowMs)| ==> h[i].0 == GetAuthHeaders(st, host, nowMs)[i].0
  {
    Merge(GetAuthHeaders(st, host, nowMs), callerHeaders)
  }

  /** A header the caller supplies is sent with the caller's value, even
      over `Authorization` and `Content-Type`; a default the caller does not
      mention is sent as the default. */
  lemma CallerHeadersWin(st: Store, host: Host, nowMs: int, callerHeaders: Headers, name: string)
    ensures Lookup(callerHeaders, name).Some? ==>
      Lookup(RequestHeaders(st, host, nowMs, callerHeaders), name) == Lookup(callerHeaders, name)
    ensures Lookup(callerHeaders, name).None? ==>
      Lookup(RequestHeaders(st, host, nowMs, callerHeaders), name) == Lookup(GetAuthHeaders(st, host, nowMs), name)
  {
    MergeLookup(GetAuthHeaders(st, host, nowMs), callerHeaders, name);
  }

  /** A request as sent and what came of it. */
  datatype Sent<T> = Sent(headers: Headers, store: Store, result: Reply<Response<T>>)

  predicate IsAuthError(status: int) {
    status == 401 || status == 403
  }

  /** `authenticatedFetch` given what the network answered: the reply is
      handed back as it came; a 401 or 403 first evicts the session and
      sends the window to the sign-in page. */
  function AuthenticatedFetch<T>(st: Store, host: Host, nowMs: int, callerHeaders: Headers, reply: Reply<Response<T>>): (r: Sent<T>)
    ensures r.result == reply
    ensures r.headers == RequestHeaders(st, host, nowMs, callerHeaders)
    ensures reply.Responded? && IsAuthError(reply.response.status) ==>
      r.store == RemoveToken(st).(location := Some(SignInPath))
    ensures !(reply.Responded? && IsAuthError(reply.response.status)) ==> r.store == st
  {
    var headers := RequestHeaders(st, host, nowMs, callerHeaders);
    if reply.Responded? && IsAuthError(reply.response.status) then
      Sent(headers, RemoveToken(st).(location := Some(SignInPath)), reply)
    else
      Sent(headers, st, reply)
  }

  /** After a 401 or 403 nobody is authenticated any more, whatever the
      clock says. */
  lemma AuthErrorLogsOut<T>(st: Store, host: Host, nowMs: int, later: int, callerHeaders: Headers, response: Response<T>)
    requires IsAuthError(response.status)
    ensures var s := AuthenticatedFetch(st, host, nowMs, callerHeaders, Responded(response)).store;
      !IsAuthenticated(s, host, later) && GetUser(s, host).value.None?
  {
  }

  /** The address `fetchUserInfo` requests: `/auth/me` under the API base
      URL the environment sets, or under `AuthDefaultApiUrl` when it sets
      none or an empty one. */
  function UserInfoUrl(apiUrl: Option<string>): (r: string)
    ensures |r| == |OrElse(apiUrl, AuthDefaultApiUrl)| + |"/auth/me"|
    ensures r[|r| - |"/auth/me"|..] == "/auth/me"
    ensures Truthy(apiUrl) ==> r[..|apiUrl.value|] == apiUrl.value
    ensures !Truthy(apiUrl) ==> r[..|AuthDefaultApiUrl|] == AuthDefaultApiUrl
  {
    OrElse(apiUrl, AuthDefaultApiUrl) + "/auth/me"
  }

  /** `fetchUserInfo` given the reply to `GET /auth/me`: a successful
      response's user is cached and returned; a failed request, a non-2xx
      status or an unreadable body yields none. The store is the one the
      request left behind, with the user cached on success. */
  function FetchUserInfo(st: Store, host: Host, nowMs: int, reply: Reply<Response<User>>): (r: Read<User>)
    ensures var after := AuthenticatedFetch(st, host, nowMs, [], reply).store;
      && (r.value.None? ==> r.store == after)
      && (r.value.Some? ==> r.store == SetUser(after, r.value.value, host))
    ensures r.value.Some? <==> reply.Responded? && reply.response.Ok() && reply.response.body.Some?
    ensures r.value.Some? ==> r.value == reply.response.body
  {
    var sent := AuthenticatedFetch(st, host, nowMs, [], reply);
    match reply
    case Threw(_) => Read(None, sent.store)
    case Responded(response) =>
      if response.Ok() && response.body.Some? then
        Read(response.body, SetUser(sent.store, response.body.value, host))
      else Read(None, sent.store)
  }

  /** A successful user lookup leaves that user readable from the cache. */
  lemma FetchedUserCached(st: Store, host: Host, nowMs: int, reply: Reply<Response<User>>)
    requires JsonRoundTrips(host)
    ensures var r := FetchUserInfo(st, host, nowMs, reply);
      r.value.Some? ==> GetUser(r.store, host).value == r.value
  {
    var r := FetchUserInfo(st, host, nowMs, reply);
    if r.value.Some? {
      var after := AuthenticatedFetch(st, host, nowMs, [], reply).store;
      SetUserRoundTrip(after, r.value.value, host);
    }
  }

  /** The outcome of `login`: the user, or the error it throws. */
  datatype LoginResult = LoggedIn(user: User, store: Store) | LoginFailed(message: string, store: Store)

  /** `login(token)`: store the token, look the user up with it, and undo
      the whole session when no user comes back. */
  function Login(st: Store, host: Host, nowMs: int, token: string, reply: Reply<Response<User>>): (r: LoginResult)
    ensures r.LoggedIn? <==> FetchUserInfo(SetToken(st, token), host, nowMs, reply).value.Some?
    ensures r.LoginFailed? ==> r.message == "Failed to fetch user information"
    ensures r.LoginFailed? ==> GetToken(r.store).None? && r.store.userSlot.None?
    ensures r.LoggedIn? ==> r.store.userSlot.Some? && Some(r.user) == reply.response.body
  {
    var fetched := FetchUserInfo(SetToken(st, token), host, nowMs, reply);
    match fetched.value
    case Some(user) => LoggedIn(user, fetched.store)
    case None => LoginFailed("Failed to fetch user information", RemoveToken(fetched.store))
  }

  /** When the user lookup succeeds without an auth error, the new token is
      what the cookie holds afterwards. */
  lemma LoginKeepsToken(st: Store, host: Host, nowMs: int, token: string, reply: Reply<Response<User>>)
    requires Login(st, host, nowMs, token, reply).LoggedIn?
    ensures Login(st, host, nowMs, token, reply).store.cookie == Some(token)
  {
  }

  /** `logout`: the session goes and the window is sent to sign in. */
  function Logout(st: Store): (r: Store)
    ensures GetToken(r).None? && r.userSlot.None?
    ensures r.location == Some(SignInPath)
  {
    RemoveToken(st).(location := Some(SignInPath))
  }
}
