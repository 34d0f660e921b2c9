/** `ApiService` of `src/lib/api.ts`: the chat CRUD client, which maps every
    failure to a sentinel value, the authenticated stream URL, and the two
    ways of opening an authenticated stream. Requests go through
    `Auth.AuthenticatedFetch` unless noted; what the network answers is an
    input. */
module Api {
  import opened JsValues
  import opened JsStrings
  import opened Fetch
  import opened Url
  import opened AppConfig
  import opened Auth

  /** The fallback of `API_BASE_URL`. */
  const ApiDefaultBaseUrl := "https://jarvis-api.orangehealth.dev"

  function ApiBaseUrl(env: Option<string>): (r: string)
    ensures r != ""
    ensures !Truthy(env) ==> r == ApiDefaultBaseUrl
    ensures Truthy(env) ==> r == env.value
  {
    OrElse(env, ApiDefaultBaseUrl)
  }

  datatype ChatSummary = ChatSummary(id: string, title: string, createdAt: string, updatedAt: string, messageCount: int)

  datatype ChatMessage = ChatMessage(id: string, role: string, content: string, timestamp: string)

  datatype ChatData = ChatData(id: string, title: string, messages: seq<ChatMessage>, createdAt: string, updatedAt: string)

  /** The request a client method makes: its HTTP method (`verb`) and URL. The JSON
      bodies are not modelled. */
  datatype Request = Request(verb: string, url: string)

  /** What a client method returns, the request it made, and the store
      after the request (an auth error evicts the session). */
  datatype Call<T> = Call(request: Request, value: T, store: Store)

  /** `response.ok ? await response.json() : fallback`, inside a `try`
      whose `catch` returns the same fallback: only a 2xx response with a
      readable body yields that body. */
  function BodyOr<T>(reply: Reply<Response<T>>, fallback: T): (r: T)
    ensures reply.Responded? && reply.response.Ok() && reply.response.body.Some? ==> r == reply.response.body.value
    ensures !(reply.Responded? && reply.response.Ok() && reply.response.body.Some?) ==> r == fallback
  {
    match reply
    case Threw(_) => fallback
    case Responded(response) =>
      if response.Ok() && response.body.Some? then response.body.value else fallback
  }

  /** The shared tail of the CRUD methods: the request through
      `authenticatedFetch`, the reply mapped to a value or the sentinel. */
  function Perform<T>(st: Store, host: Host, nowMs: int, request: Request, reply: Reply<Response<T>>, fallback: T): (c: Call<T>)
    ensures c.request == request
    ensures c.value == BodyOr(reply, fallback)
    ensures c.store == AuthenticatedFetch(st, host, nowMs, [], reply).store
  {
    Call(request, BodyOr(reply, fallback), AuthenticatedFetch(st, host, nowMs, [], reply).store)
  }

  function ChatUrl(baseUrl: string, chatId: string): (r: string)
    ensures baseUrl + "/chats/" <= r && r[|baseUrl| + 7..] == chatId
  {
    baseUrl + "/chats/" + chatId
  }

  /** `getUserChats(limit = 50)`: the summaries, or an empty list on any
      failure. */
  function GetUserChats(st: Store, host: Host, nowMs: int, baseUrl: string, limit: Option<int>, reply: Reply<Response<seq<ChatSummary>>>): (c: Call<seq<ChatSummary>>)
    ensures c.request == Request("GET", baseUrl + "/chats?limit=" + IntToString(limit.GetOr(50)))
    ensures c.value == BodyOr(reply, [])
  {
    Perform(st, host, nowMs, Request("GET", baseUrl + "/chats?limit=" + IntToString(limit.GetOr(50))), reply, [])
  }

  /** `getChat`: the chat, or none on any failure. */
  function GetChat(st: Store, host: Host, nowMs: int, baseUrl: string, chatId: string, reply: Reply<Response<Option<ChatData>>>): (c: Call<Option<ChatData>>)
    ensures c.request == Request("GET", ChatUrl(baseUrl, chatId))
    ensures c.value == BodyOr(reply, None)
  {
    Perform(st, host, nowMs, Request("GET", ChatUrl(baseUrl, chatId)), reply, None)
  }

  /** `createChat`: the created chat, or none on any failure. */
  function CreateChat(st: Store, host: Host, nowMs: int, baseUrl: string, reply: Reply<Response<Option<ChatData>>>): (c: Call<Option<ChatData>>)
    ensures c.request == Request("POST", baseUrl + "/chats")
    ensures c.value == BodyOr(reply, None)
  {
    Perform(st, host, nowMs, Request("POST", baseUrl + "/chats"), reply, None)
  }

  /** `addMessage`: the updated chat, or none on any failure. */
  function AddMessage(st: Store, host: Host, nowMs: int, baseUrl: string, chatId: string, reply: Reply<Response<Option<ChatData>>>): (c: Call<Option<ChatData>>)
    ensures c.request == Request("POST", ChatUrl(baseUrl, chatId) + "/messages")
    ensures c.value == BodyOr(reply, None)
  {
    Perform(st, host, nowMs, Request("POST", ChatUrl(baseUrl, chatId) + "/messages"), reply, None)
  }

  /** `updateChatTitle`: the updated chat, or none on any failure. */
  function UpdateChatTitle(st: Store, host: Host, nowMs: int, baseUrl: string, chatId: string, reply: Reply<Response<Option<ChatData>>>): (c: Call<Option<ChatData>>)
    ensures c.request == Request("PUT", ChatUrl(baseUrl, chatId))
    ensures c.value == BodyOr(reply, None)
  {
    Perform(st, host, nowMs, Request("PUT", ChatUrl(baseUrl, chatId)), reply, None)
  }

  /** `deleteChat`: whether the response was a 2xx; a failed request is
      `false`. The body is never read. */
  function DeleteChat(st: Store, host: Host, nowMs: int, baseUrl: string, chatId: string, reply: Reply<Response<()>>): (c: Call<bool>)
    ensures c.request == Request("DELETE", ChatUrl(baseUrl, chatId))
    ensures c.value <==> reply.Responded? && IsOk(reply.response.status)
    ensures c.store == AuthenticatedFetch(st, host, nowMs, [], reply).store
  {
    var value := match reply case Threw(_) => false case Responded(response) => response.Ok();
    Call(Request("DELETE", ChatUrl(baseUrl, chatId)), value, AuthenticatedFetch(st, host, nowMs, [], reply).store)
  }

  /** The sentinels: a thrown request or a non-2xx status reads as an empty
      list, as none, or as `false`, and only a 401 or 403 touches the
      session. */
  lemma FailuresAreSentinels(st: Store, host: Host, nowMs: int, baseUrl: string, chatId: string, status: int, text: string, message: string)
    requires !IsOk(status)
    ensures GetUserChats(st, host, nowMs, baseUrl, None, Responded(Response(status, text, Some([])))).value == []
    ensures GetUserChats(st, host, nowMs, baseUrl, None, Threw(message)).value == []
    ensures forall d :: GetChat(st, host, nowMs, baseUrl, chatId, Responded(Response(status, text, d))).value == None
    ensures GetChat(st, host, nowMs, baseUrl, chatId, Threw(message)).value == None
    ensures !DeleteChat(st, host, nowMs, baseUrl, chatId, Responded(Response(status, text, Some(())))).value
    ensures !DeleteChat(st, host, nowMs, baseUrl, chatId, Threw(message)).value
    ensures GetChat(st, host, nowMs, baseUrl, chatId, Threw(message)).store == st
    ensures !IsAuthError(status) ==> GetChat(st, host, nowMs, baseUrl, chatId, Responded(Response(status, text, None))).store == st
  {
  }

  /** A 2xx reply with a readable body is passed through unchanged, and a
      delete answered with 2xx reports `true` even without a body. */
  lemma SuccessPassesBody(st: Store, host: Host, nowMs: int, baseUrl: string, chatId: string, status: int, text: string, d: ChatData, cs: seq<ChatSummary>)
    requires IsOk(status)
    ensures GetChat(st, host, nowMs, baseUrl, chatId, Responded(Response(status, text, Some(Some(d))))).value == Some(d)
    ensures GetUserChats(st, host, nowMs, baseUrl, None, Responded(Response(status, text, Some(cs)))).value == cs
    ensures DeleteChat(st, host, nowMs, baseUrl, chatId, Responded(Response(status, text, None))).value
    ensures GetChat(st, host, nowMs, baseUrl, chatId, Responded(Response(status, text, Some(Some(d))))).store == st
  {
  }

  /** The parameters of `getAuthenticatedStreamUrl`: `k` and `alpha` fall
      back to 20 and 0.3 only when omitted. */
  function AuthStreamParams(query: string, k: Option<int>, alpha: Option<real>, codecs: Codecs): (ps: seq<Param>)
    ensures |ps| == 4
    ensures ps[0] == ("q", query) && ps[3] == ("detailed_response", "true")
    ensures k.Some? ==> ps[1] == ("k", IntToString(k.value))
    ensures k.None? ==> ps[1] == ("k", "20")
    ensures ps[2] == ("alpha", codecs.numberToString(alpha.GetOr(0.3)))
  {
    assert IntToString(20) == "20";
    [("q", query),
     ("k", IntToString(k.GetOr(20))),
     ("alpha", codecs.numberToString(alpha.GetOr(0.3))),
     ("detailed_response", "true")]
  }

  /** `getAuthenticatedStreamUrl`: the ask-stream URL of the API base with
      the parameters. */
  function GetAuthenticatedStreamUrl(baseUrl: string, query: string, k: Option<int>, alpha: Option<real>, codecs: Codecs): (r: string)
    ensures GetApiUrl(baseUrl, AskStream) + "?" <= r
  {
    baseUrl + "/ask/stream?" + Serialize(AuthStreamParams(query, k, alpha, codecs), codecs.formEncode)
  }

  /** Read back, the authenticated stream URL carries q, k, alpha and
      detailed_response=true in that order, with an explicitly given k and
      alpha kept as given, zero included; the configuration's builder turns
      the same explicit zero into 10 and 0.3. */
  lemma AuthStreamUrlKeepsZero(baseUrl: string, query: string, k: Option<int>, alpha: Option<real>, codecs: Codecs)
    requires Delimits(codecs.formEncode)
    ensures var prefix := GetApiUrl(baseUrl, AskStream) + "?";
            var pieces := Split(GetAuthenticatedStreamUrl(baseUrl, query, k, alpha, codecs)[|prefix|..], '&');
            var enc := codecs.formEncode;
            && |pieces| == 4
            && Split(pieces[0], '=') == [enc("q"), enc(query)]
            && Split(pieces[1], '=') == [enc("k"), enc(IntToString(k.GetOr(20)))]
            && Split(pieces[2], '=') == [enc("alpha"), enc(codecs.numberToString(alpha.GetOr(0.3)))]
            && Split(pieces[3], '=') == [enc("detailed_response"), enc("true")]
    ensures k == Some(0) ==> IntToString(k.GetOr(20)) == "0" && IntToString(EffectiveK(k)) == "10"
    ensures alpha == Some(0.0) ==> alpha.GetOr(0.3) == 0.0 && EffectiveAlpha(alpha) == 0.3
  {
    var prefix := GetApiUrl(baseUrl, AskStream) + "?";
    var ps := AuthStreamParams(query, k, alpha, codecs);
    assert GetAuthenticatedStreamUrl(baseUrl, query, k, alpha, codecs)[|prefix|..] == Serialize(ps, codecs.formEncode);
    SerializeSplits(ps, codecs.formEncode);
    if k == Some(0) {
      assert IntToString(10) == "10";
    }
  }

  /** A streaming response as far as `createAuthenticatedStream` reads it:
      status, status text, the text `response.text()` resolves to, and
      whether a body stream is present. */
  datatype StreamResponse = StreamResponse(status: int, statusText: string, text: string, hasBody: bool)

  /** What `createAuthenticatedStream` does: resolves to `null`, throws
      with a message, or resolves to the body opened with these headers. */
  datatype StreamOutcome = NoToken | Failed(message: string) | Opened(headers: Headers)

  /** `createAuthenticatedStream(url)` given the reply to its own `fetch`
      (it does not go through `authenticatedFetch`, so nothing is evicted). */
  function CreateAuthenticatedStream(st: Store, host: Host, nowMs: int, reply: Reply<StreamResponse>): (r: StreamOutcome)
    ensures r.NoToken? <==> !IsAuthenticated(st, host, nowMs)
    ensures IsAuthenticated(st, host, nowMs) && reply.Threw? ==> r == Failed(reply.message)
    ensures IsAuthenticated(st, host, nowMs) && reply.Responded? && !IsOk(reply.response.status) ==>
      r == Failed("HTTP " + IntToString(reply.response.status) + ": " + reply.response.statusText + " - " + reply.response.text)
    ensures IsAuthenticated(st, host, nowMs) && reply.Responded? && IsOk(reply.response.status) && !reply.response.hasBody ==>
      r == Failed("Response body is null")
    ensures r.Opened? <==> IsAuthenticated(st, host, nowMs) && reply.Responded? && IsOk(reply.response.status) && reply.response.hasBody
    ensures r.Opened? ==> Lookup(r.headers, "Authorization") == Some("Bearer " + st.cookie.value)
    ensures r.Opened? ==> Lookup(r.headers, "Accept") == Some("text/event-stream")
  {
    if !IsAuthenticated(st, host, nowMs) then NoToken
    else match reply
      case Threw(message) => Failed(message)
      case Responded(response) =>
        if !IsOk(response.status) then
          Failed("HTTP " + IntToString(response.status) + ": " + response.statusText + " - " + response.text)
        else if !response.hasBody then Failed("Response body is null")
        else Opened([("Authorization", "Bearer " + st.cookie.value), ("Accept", "text/event-stream"), ("Cache-Control", "no-cache")])
  }

  /** The stream presents the same bearer credential every other
      authenticated request carries, and asks for an uncached event stream. */
  lemma StreamUsesSessionCredential(st: Store, host: Host, nowMs: int, reply: Reply<StreamResponse>)
    requires CreateAuthenticatedStream(st, host, nowMs, reply).Opened?
    ensures var h := CreateAuthenticatedStream(st, host, nowMs, reply).headers;
            && Lookup(h, "Authorization") == Lookup(GetAuthHeaders(st, host, nowMs), "Authorization")
            && Lookup(h, "Authorization").Some?
            && Lookup(h, "Cache-Control") == Some("no-cache")
  {
    var h := CreateAuthenticatedStream(st, host, nowMs, reply).headers;
    assert h == [("Authorization", "Bearer " + st.cookie.value), ("Accept", "text/event-stream"), ("Cache-Control", "no-cache")];
    var tail := [("Cache-Control", "no-cache")];
    assert h[1..][1..] == tail;
    assert Lookup(tail, "Cache-Control") == Some("no-cache");
    assert Lookup(h[1..], "Cache-Control") == Lookup(tail, "Cache-Control");
    assert Lookup(h, "Cache-Control") == Lookup(h[1..], "Cache-Control");
  }

  /** A failed stream names the status it failed with: two refusals with
      the same message came back with the same status. */
  lemma StreamFailureNamesStatus(st: Store, host: Host, nowMs: int, a: StreamResponse, b: StreamResponse)
    requires IsAuthenticated(st, host, nowMs) && !IsOk(a.status) && !IsOk(b.status)
    requires CreateAuthenticatedStream(st, host, nowMs, Responded(a)) == CreateAuthenticatedStream(st, host, nowMs, Responded(b))
    ensures a.status == b.status
  {
    var sa, sb := IntToString(a.status), IntToString(b.status);
    var m := CreateAuthenticatedStream(st, host, nowMs, Responded(a)).message;
    assert m == "HTTP " + sa + ": " + a.statusText + " - " + a.text;
    assert m == "HTTP " + sb + ": " + b.statusText + " - " + b.text;
    assert m[5 + |sa|] == ':' && m[5 + |sb|] == ':';
    assert forall j :: 5 <= j < 5 + |sa| ==> m[j] == sa[j - 5];
    assert forall j :: 5 <= j < 5 + |sb| ==> m[j] == sb[j - 5];
    assert |sa| == |sb|;
    assert sa == m[5..5 + |sa|] == sb;
    ParseIntToString(a.status);
    ParseIntToString(b.status);
  }

  /** `createAuthenticatedEventSource(url)`: without a valid token, none;
      otherwise the URL with `token=<encoded token>` appended, after `&`
      when the URL already has a `?` and after `?` otherwise. */
  function CreateAuthenticatedEventSource(st: Store, host: Host, nowMs: int, url: string, codecs: Codecs): (r: Option<string>)
    ensures r.None? <==> !IsAuthenticated(st, host, nowMs)
    ensures r.Some? ==> url <= r.value && |r.value| > |url|
    ensures r.Some? ==> r.value[|url|] == (if '?' in url then '&' else '?')
    ensures r.Some? ==> r.value[|url| + 1..] == "token=" + codecs.uriComponent(st.cookie.value)
  {
    if !IsAuthenticated(st, host, nowMs) then None
    else
      var separator := if '?' in url then '&' else '?';
      Some(url + [separator] + "token=" + codecs.uriComponent(st.cookie.value))
  }

  /** With an encoder that never emits `?`, the event-source URL has
      exactly one `?` when the given URL had none, and otherwise as many as
      the given URL: the token never opens a second query. */
  lemma EventSourceUrlOneQuery(st: Store, host: Host, nowMs: int, url: string, codecs: Codecs)
    requires forall s :: '?' !in codecs.uriComponent(s)
    requires IsAuthenticated(st, host, nowMs)
    ensures var r := CreateAuthenticatedEventSource(st, host, nowMs, url, codecs).value;
            Count(r, '?') == if '?' in url then Count(url, '?') else 1
  {
    var enc := codecs.uriComponent(st.cookie.value);
    var separator := if '?' in url then '&' else '?';
    var r := url + [separator] + "token=" + enc;
    assert r == url + ([separator] + ("token=" + enc));
    CountAppend(url, [separator] + ("token=" + enc), '?');
    CountAppend([separator], "token=" + enc, '?');
    CountAppend("token=", enc, '?');
    CountAbsent(enc, '?');
    assert Count("token=", '?') == 0;
    if '?' !in url {
      CountAbsent(url, '?');
    }
  }
}
