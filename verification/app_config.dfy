/** The application configuration (`src/config/app.config.ts`): the
    constants the rest of the model reads, and the three URL builders. */
module AppConfig {
  import opened JsValues
  import opened JsStrings
  import opened Url

  /** Fallback of `api.baseUrl` when the environment does not set it. */
  const DefaultBaseUrl := "https://jarvis.orangehealth.dev"

  const GitHubBaseUrl := "https://github.com"
  const GitHubPrefix := "https://github.com/"
  const DefaultOrganization := "Orange-Health"
  const DefaultBranch := "main"

  /** `search.default.k` and `search.default.alpha`. */
  const DefaultK := 10
  const DefaultAlpha: real := 0.3

  /** `ui.chat.chatTitleMaxLength` and `ui.chat.maxTitleWords`. */
  const ChatTitleMaxLength := 50
  const MaxTitleWords := 6

  const ConnectionError := "I apologize, but I'm having trouble connecting to the backend service. Please ensure the backend server is running."
  const GenericError := "Something went wrong. Please try again."

  /** `chat.defaultChat` and `chat.defaultNewChatTitle`. */
  const DefaultChatTitle := "New Chat"
  const DefaultUserId := "guest"
  const DefaultNewChatTitle := "New Conversation"

  /** `chat.loadingMessages`, cycled while an answer is pending. */
  const LoadingMessages: seq<string> := [
    "Analyzing the codebase",
    "Searching through files",
    "Processing your query",
    "Finding relevant code",
    "Generating insights",
    "Reviewing code patterns",
    "Exploring dependencies",
    "Understanding context"
  ]

  /** The keys of `api.endpoints`. */
  datatype Endpoint = AskStream | Health | Docs

  function EndpointPath(e: Endpoint): string {
    match e
    case AskStream => "/ask/stream"
    case Health => "/health"
    case Docs => "/docs"
  }

  /** `process.env.NEXT_PUBLIC_API_URL || 'https://jarvis.orangehealth.dev'`. */
  function BaseUrl(env: Option<string>): (r: string)
    ensures r != ""
    ensures !Truthy(env) ==> r == DefaultBaseUrl
    ensures Truthy(env) ==> r == env.value
  {
    OrElse(env, DefaultBaseUrl)
  }

  /** `getApiUrl`: the base URL immediately followed by the endpoint path. */
  function GetApiUrl(baseUrl: string, e: Endpoint): (r: string)
    ensures baseUrl <= r
    ensures r[|baseUrl|..] == EndpointPath(e)
  {
    baseUrl + EndpointPath(e)
  }

  /** Different endpoints never share a URL. */
  lemma GetApiUrlInjective(baseUrl: string, e1: Endpoint, e2: Endpoint)
    requires e1 != e2
    ensures GetApiUrl(baseUrl, e1) != GetApiUrl(baseUrl, e2)
  {
    assert GetApiUrl(baseUrl, e1)[|baseUrl|..] == EndpointPath(e1);
    assert GetApiUrl(baseUrl, e2)[|baseUrl|..] == EndpointPath(e2);
  }

  /** `k || search.default.k`: an absent or zero `k` is replaced. */
  function EffectiveK(k: Option<int>): (r: int)
    ensures r != 0
    ensures k.Some? && k.value != 0 ==> r == k.value
    ensures k.None? || k.value == 0 ==> r == DefaultK
  {
    if k.Some? && k.value != 0 then k.value else DefaultK
  }

  /** `alpha || search.default.alpha`: an absent or zero `alpha` is replaced. */
  function EffectiveAlpha(alpha: Option<real>): (r: real)
    ensures r != 0.0
    ensures alpha.Some? && alpha.value != 0.0 ==> r == alpha.value
    ensures alpha.None? || alpha.value == 0.0 ==> r == DefaultAlpha
  {
    if alpha.Some? && alpha.value != 0.0 then alpha.value else DefaultAlpha
  }

  /** The parameters `buildStreamUrl` hands to `URLSearchParams`. */
  function StreamParams(query: string, k: Option<int>, alpha: Option<real>, codecs: Codecs): (ps: seq<Param>)
    ensures |ps| == 4
    ensures ps[0] == ("q", query)
    ensures ps[1].0 == "k" && ps[2].0 == "alpha"
    ensures ps[3] == ("detailed_response", "true")
  {
    [("q", query),
     ("k", IntToString(EffectiveK(k))),
     ("alpha", codecs.numberToString(EffectiveAlpha(alpha))),
     ("detailed_response", "true")]
  }

  /** `buildStreamUrl`: the ask-stream URL, one `?`, then the serialized
      parameters. */
  function BuildStreamUrl(baseUrl: string, query: string, k: Option<int>, alpha: Option<real>, codecs: Codecs): (r: string)
    ensures GetApiUrl(baseUrl, AskStream) + "?" <= r
  {
    GetApiUrl(baseUrl, AskStream) + "?" + Serialize(StreamParams(query, k, alpha, codecs), codecs.formEncode)
  }

  /** Read back, the query of `buildStreamUrl` holds exactly q, k, alpha and
      detailed_response=true in that order; k is never 0 (absent and 0 both
      become 10) and alpha is never 0 (absent and 0 both become 0.3). */
  lemma StreamUrlQuery(baseUrl: string, query: string, k: Option<int>, alpha: Option<real>, codecs: Codecs)
    requires Delimits(codecs.formEncode)
    ensures var prefix := GetApiUrl(baseUrl, AskStream) + "?";
            var pieces := Split(BuildStreamUrl(baseUrl, query, k, alpha, codecs)[|prefix|..], '&');
            var enc := codecs.formEncode;
            && |pieces| == 4
            && Split(pieces[0], '=') == [enc("q"), enc(query)]
            && Split(pieces[1], '=') == [enc("k"), enc(IntToString(EffectiveK(k)))]
            && Split(pieces[2], '=') == [enc("alpha"), enc(codecs.numberToString(EffectiveAlpha(alpha)))]
            && Split(pieces[3], '=') == [enc("detailed_response"), enc("true")]
            && EffectiveK(k) != 0 && EffectiveAlpha(alpha) != 0.0
  {
    var prefix := GetApiUrl(baseUrl, AskStream) + "?";
    var ps := StreamParams(query, k, alpha, codecs);
    assert BuildStreamUrl(baseUrl, query, k, alpha, codecs)[|prefix|..] == Serialize(ps, codecs.formEncode);
    SerializeSplits(ps, codecs.formEncode);
  }

  /** The GitHub `owner/repo` a repository name stands for: a name with a
      slash is already qualified, any other gets the default organisation. */
  function OwnerRepo(repoName: string): (r: string)
    ensures repoName <= r || r == DefaultOrganization + "/" + repoName
  {
    if '/' in repoName then repoName else DefaultOrganization + "/" + repoName
  }

  /** `generateGitHubUrl`: "#" unless both the repository name and the path
      are non-empty; otherwise a blob link on the default branch. */
  function GenerateGitHubUrl(repoName: Option<string>, path: Option<string>): (r: string)
    ensures r == "#" <==> !(Truthy(repoName) && Truthy(path))
    ensures r != "#" && '/' in repoName.value ==>
      r == "https://github.com/" + repoName.value + "/blob/main/" + path.value
    ensures r != "#" && '/' !in repoName.value ==>
      r == "https://github.com/Orange-Health/" + repoName.value + "/blob/main/" + path.value
  {
    if !Truthy(repoName) || !Truthy(path) then "#"
    else if '/' in repoName.value then
      GitHubBaseUrl + "/" + repoName.value + "/blob/" + DefaultBranch + "/" + path.value
    else
      GitHubBaseUrl + "/" + DefaultOrganization + "/" + repoName.value + "/blob/" + DefaultBranch + "/" + path.value
  }

  /** Every real link is `https://github.com/` + owner/repo + `/blob/main/` +
      path, so it starts with the GitHub prefix and ends with the path. */
  lemma GitHubUrlShape(repoName: Option<string>, path: Option<string>)
    requires Truthy(repoName) && Truthy(path)
    ensures var r := GenerateGitHubUrl(repoName, path);
            && r == GitHubPrefix + OwnerRepo(repoName.value) + "/blob/main/" + path.value
            && GitHubPrefix <= r
            && r[|r| - |"/blob/main/" + path.value|..] == "/blob/main/" + path.value
  {
  }
}
