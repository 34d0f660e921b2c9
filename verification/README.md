# dumbledoor-web core, modelled in Dafny

This project models the rules of the Jarvis chat front-end ("dumbledoor-web"): the URL builders of the
application configuration, the conversation state of the chat page and the handlers of its
answer stream, the sources panel's display rules, the chat area's input guard and loading
indicator, the authentication service (token cookie, cached user, JWT expiry, authenticated
requests), the chat CRUD client, the authentication provider and the OAuth callback page.

Everything is immutable data and pure functions:

- `JsValues`, `JsStrings`, `Fetch` and `Url` give the JavaScript behaviour the code relies on:
  truthiness, `String(n)` for integers, `trim`/`split`/`join`/`substring`/`includes`,
  header-object spread and `URLSearchParams` serialisation.
- `AppConfig` holds the constants of `src/config/app.config.ts` and its three URL builders.
- `ChatTypes` holds the records of `src/types/chat.ts`.
- `ChatInterface` is the chat page as a reducer over (chat list, current chat, sources panel).
- `ChatStream` adds the placeholder answer and the event-stream handlers. Events arrive as a
  sequence, with each payload already parsed (`None` when `JSON.parse` threw).
- `SourcesSidebar` and `ChatArea` hold the display and input rules.
- `Auth` holds `AuthService`; the cookie and local storage are one `Store` value.
- `Api` holds `ApiService`.
- `AuthProvider` and `AuthCallback` hold the React provider and the callback page.

Library calls are passed in as functions, in `Auth.Host` and `Url.Codecs`: `JSON.parse`,
`JSON.stringify`, `atob`, the form-urlencoder, `encodeURIComponent`, and `String(x)` for the
alpha parameter, which is applied to every alpha sent, integral or not (0.3, 1, 0.5, ...). Clock readings and generated ids are arguments. What the network answers is
an input (`Fetch.Reply`).

## Model

| member | source | states |
|---|---|---|
| AppConfig.BaseUrl | src/config/app.config.ts:9 | the configured base URL wins when non-empty; otherwise it is https://jarvis.orangehealth.dev |
| AppConfig.GetApiUrl | src/config/app.config.ts:170-172 | the endpoint URL is the base URL followed immediately by the endpoint's path |
| AppConfig.GetApiUrlInjective | src/config/app.config.ts:10-14 | different endpoints never share a URL |
| AppConfig.EffectiveK | src/config/app.config.ts:177 | the k sent is never 0; an absent or zero k becomes 10, any other k is kept |
| AppConfig.EffectiveAlpha | src/config/app.config.ts:178 | the alpha sent is never 0; an absent or zero alpha becomes 0.3, any other alpha is kept |
| AppConfig.BuildStreamUrl | src/config/app.config.ts:174-183 | the stream URL is the ask-stream endpoint of the base URL followed by `?` and then the query |
| AppConfig.StreamUrlQuery | src/config/app.config.ts:174-183 | reading the stream URL's query back gives exactly q, k, alpha and detailed_response=true, in that order, after one `?` |
| AppConfig.GenerateGitHubUrl | src/config/app.config.ts:185-193 | the link is "#" exactly when the repository name or the path is missing or empty; a name with a slash is used as owner/repo, any other name gets the Orange-Health organisation |
| AppConfig.GitHubUrlShape | src/config/app.config.ts:187-192 | every real link is the GitHub prefix, then owner/repo, then /blob/main/, then the path |
| ChatInterface.Initial | src/components/ChatInterface.tsx:35-46 | after mounting there is exactly one empty chat, it is current and in the list, and no sources show |
| ChatInterface.CreateNewChat | src/components/ChatInterface.tsx:65-83 | a new chat is refused while the current chat is empty; otherwise an empty chat is put in front of the unchanged list, made current, and the sources are cleared |
| ChatInterface.DeleteUndoesCreate | src/components/ChatInterface.tsx:65-101 | deleting a chat just created under a fresh id restores the old list, with its first chat current and no sources |
| ChatInterface.ReopenedSources | src/components/ChatInterface.tsx:88-91 | reopening a chat shows the sources of its last assistant message, or nothing when it has none |
| ChatInterface.SelectChat | src/components/ChatInterface.tsx:85-92 | selecting a chat of the list makes it current without touching the list, and keeps the current chat in the list |
| ChatInterface.WithoutChat | src/components/ChatInterface.tsx:95 | no chat left has the deleted id, and the list never grows |
| ChatInterface.WithoutChatAppend | src/components/ChatInterface.tsx:95 | the filter keeps the order of the list: filtering two runs of the list is filtering each run and joining the results |
| ChatInterface.WithoutChatCounts | src/components/ChatInterface.tsx:95 | a chat with another id stays exactly as many times as it occurred; a chat with the id is gone |
| ChatInterface.WithoutChatMembers | src/components/ChatInterface.tsx:95 | a chat remains exactly when it was in the list under another id |
| ChatInterface.WithoutChatFirst | src/components/ChatInterface.tsx:95-98 | the first chat left is the first chat of the list with another id, which is the one a deletion of the current chat makes current |
| ChatInterface.DeleteChat | src/components/ChatInterface.tsx:94-101 | every chat with the id leaves the list; deleting the current chat makes the first remaining chat (or none) current and clears the sources, any other delete leaves the current chat and the sources alone |
| ChatInterface.DeleteChatIdempotent | src/components/ChatInterface.tsx:94-101 | deleting the same chat twice is deleting it once |
| ChatInterface.SendMessage | src/components/ChatInterface.tsx:103-127 | without a current chat nothing happens; otherwise the current chat gets the user's message at the end and a new updatedAt, with title, user id and creation time kept; its list entries take that new version; and the sources are cleared |
| ChatInterface.SendMessageTouchesOnlyCurrent | src/components/ChatInterface.tsx:125-127 | list entries of other chats keep their place and value |
| ChatInterface.ActionsKeepSynced | src/components/ChatInterface.tsx:65-127 | any sequence of new, select (of a listed chat), delete and send keeps the current chat inside the chat list |
| ChatStream.SourceTitle | src/components/ChatInterface.tsx:174-176 | a source title is repo/path when both are present, else the path, else "Unknown File", and is never empty |
| ChatStream.FormatSources | src/components/ChatInterface.tsx:172-182 | one formatted source per record, in order, the i-th built from the i-th record |
| ChatStream.FormattedSourcesWellFormed | src/components/ChatInterface.tsx:172-182 | formatted sources have pairwise distinct ids source-0, source-1, ..., always a non-empty description, and no test or configuration flag |
| ChatStream.SourceLinkMatchesTitle | src/components/ChatInterface.tsx:174-177 | a source links to GitHub exactly when its title is repo/path; otherwise the link is "#" and the title is the path or "Unknown File" |
| ChatStream.FormatSource | src/components/ChatInterface.tsx:172-182 | the i-th record becomes source-i, titled by its repository and path, linked by the GitHub link builder, described by its preview or "No description available", with language, type and score copied and no test or configuration flag |
| ChatStream.FirstWords | src/components/ChatInterface.tsx:304 | the kept text splits into exactly the question's first six space-separated words (all of them for a shorter question), is a prefix of the question, and is empty only for an empty question |
| ChatStream.LongQuestionCutAtSpace | src/components/ChatInterface.tsx:304 | a question of more than six words is cut just before the space that follows its sixth word |
| ChatStream.DeriveTitle | src/components/ChatInterface.tsx:304-310 | the title is never empty and at most 53 characters; a long six-word prefix is cut to 50 characters plus "..."; the first letter is upper-cased; an empty question gives "Untitled Conversation" |
| ChatStream.ShortQuestionIsTitle | src/components/ChatInterface.tsx:304-306 | a question of at most six words and 50 characters becomes its own title, capitalised |
| ChatStream.LongQuestionTitle | src/components/ChatInterface.tsx:304-310 | a question of more than six words is titled by the text before the space that ends its sixth word, which splits into exactly those six words and, when it fits in fifty characters, is the title with its first letter capitalised |
| ChatStream.ConnectionErrorText | src/components/ChatInterface.tsx:278 | the error text is the connection error, a space, the base URL and a final period |
| ChatStream.StartStream | src/components/ChatInterface.tsx:145-165 | the placeholder is an empty assistant message with an empty source list; it goes at the end of the current chat, whose other fields are kept except updatedAt; the list entries take that version; the panel stays; the stream is open and, when there is a current chat, shares the placeholder with it |
| ChatStream.SetupFailed | src/components/ChatInterface.tsx:319-342 | when the stream cannot be set up, one assistant message without sources goes after the existing messages; its text is the connection error text, a blank line, "Error: " and the exception's message or the generic error; only the messages and updatedAt of the current chat change, the list follows, and the panel stays |
| ChatStream.ApplySources | src/components/ChatInterface.tsx:145-185 | a sources field replaces the panel and the answer's sources with the formatted list; the chats see the new sources only while they still hold the placeholder object itself, and are otherwise untouched |
| ChatStream.ApplyChunk | src/components/ChatInterface.tsx:187-205 | a non-empty chunk is appended to the answer, a copy of the answer is published into the current chat, and from then on the chat no longer shares the answer object; an empty or missing chunk changes nothing |
| ChatStream.ApplyEvent | src/components/ChatInterface.tsx:167-317 | a closed stream and a status event change nothing; an error or completion closes the stream, any other event leaves it as it was; the question, first-exchange flag and the answer's identity never change; only message and sources events touch the panel; the current chat stays in the list |
| ChatStream.ApplyEvents | src/components/ChatInterface.tsx:167-317 | over any run of events a closed stream stays closed, and the question, first-exchange flag and answer identity are those the stream was opened with |
| ChatStream.ChunksAccumulate | src/components/ChatInterface.tsx:235-261 | chunks delivered in order build the answer by lossless, order-preserving concatenation, the published copy follows, and the stream stays open |
| ChatStream.ChunkLeavesOthers | src/components/ChatInterface.tsx:244-246 | a chunk leaves every other message of the current chat in place and unchanged |
| ChatStream.SecondSourcesWin | src/components/ChatInterface.tsx:212-233 | a later sources event replaces an earlier one wholesale, and the answer text is untouched |
| ChatStream.EarlySourcesReachChat | src/components/ChatInterface.tsx:145-185 | sources that arrive before any chunk reach the chat through the shared placeholder, so reopening the chat after completion shows them |
| ChatStream.LateSourcesMissChat | src/components/ChatInterface.tsx:171-205 | once a chunk has published a copy, a later sources event changes only the panel and the in-flight answer, never the chats |
| ChatStream.MalformedSkipped | src/components/ChatInterface.tsx:207-209 | payloads that fail to parse have no effect: the outcome is as if they never arrived |
| ChatStream.ErrorKeepsPartialContent | src/components/ChatInterface.tsx:272-296 | an error closes the stream; partial content is kept as it is, and only an empty answer becomes the connection error text |
| ChatStream.ClosedIgnoresEvents | src/components/ChatInterface.tsx:274 | once the stream is closed, no later event changes anything |
| ChatStream.CompletedRetitles | src/components/ChatInterface.tsx:298-317 | completion closes the stream; on a first exchange the current chat takes the derived title and keeps its messages, otherwise the conversation is untouched |
| ChatStream.EventsKeepSynced | src/components/ChatInterface.tsx:167-317 | every stream handler keeps the current chat inside the chat list |
| SourcesSidebar.Clamp | src/components/SourcesSidebar.tsx:25 | with min <= max the width lies in [min, max]: a width in range is kept, one below is raised to min, one above is lowered to max; with min > max the result is max |
| SourcesSidebar.DragWidth | src/components/SourcesSidebar.tsx:23-25 | the dragged width is the pointer's distance to the window's right edge when that lies in range, the minimum when it is below, the maximum when it is above or when the bounds cross |
| SourcesSidebar.ClampIdempotent | src/components/SourcesSidebar.tsx:25 | clamping an already clamped width changes nothing |
| SourcesSidebar.CountLabelReadsBack | src/components/SourcesSidebar.tsx:94 | the count label starts with the count in decimal, and it says "source" exactly when there is one source |
| SourcesSidebar.GetFileIcon | src/components/SourcesSidebar.tsx:122-140 | the test flag beats the configuration flag, which beats the file type; an unknown or missing type gives the plain icon |
| SourcesSidebar.StreamedSourceIcon | src/components/SourcesSidebar.tsx:122-140 | sources built from the stream get their icon from the file type alone, never the test or configuration icon |
| SourcesSidebar.Ellipsize | src/components/SourcesSidebar.tsx:242-245 | a text longer than the limit keeps exactly its first characters up to the limit, followed by "..."; a shorter text is kept |
| SourcesSidebar.DisplayTitle | src/components/SourcesSidebar.tsx:230-246 | wide cards show the whole title; a very narrow card shows the first 20 characters plus "..." for a longer title, a narrow one the first 30 plus "..."; titles within the limit are shown whole |
| SourcesSidebar.WiderCardShowsMoreTitle | src/components/SourcesSidebar.tsx:230-246 | widening a card never shows less of a title: a whole title stays whole and a cut one keeps at least as long a prefix |
| SourcesSidebar.DisplayDescription | src/components/SourcesSidebar.tsx:270-278 | the description is hidden exactly when it is empty or the card is very narrow; otherwise it is cut to 100 (narrow) or 200 characters, with "..." only when something was cut |
| SourcesSidebar.WiderCardShowsMoreDescription | src/components/SourcesSidebar.tsx:270-278 | widening a card never hides a shown description, never cuts a whole one, and never shortens the prefix of a cut one |
| SourcesSidebar.UrlLabel | src/components/SourcesSidebar.tsx:282-285 | a GitHub link shows the text after the prefix up to the first "/blob/"; "#" shows "Local file"; any other link shows itself |
| SourcesSidebar.UrlLabelOfLink | src/components/SourcesSidebar.tsx:282-283 | the label of a generated link is the owner/repo it came from, unless "/blob/" starts inside that name |
| SourcesSidebar.UrlLabelOfUnqualifiedLink | src/components/SourcesSidebar.tsx:282-283 | for a repository name without a slash, other than "blob", the label is Orange-Health/name |
| SourcesSidebar.BlobRepoLabel | src/components/SourcesSidebar.tsx:282-283 | a repository named "blob" is labelled "Orange-Health" alone |
| ChatArea.HandleSubmit | src/components/ChatArea.tsx:74-80 | the trimmed text is sent and the box is emptied exactly when the trimmed text is non-empty and nothing is loading; otherwise the box is kept |
| ChatArea.SubmitGuard | src/components/ChatArea.tsx:76-77 | a message is sent exactly when nothing is loading and the box holds a non-whitespace character, and the text sent is already trimmed |
| ChatArea.HandleKeyDown | src/components/ChatArea.tsx:82-87 | Enter without Shift submits; any other key, Shift+Enter included, sends nothing and keeps the box |
| ChatArea.KeyDownSendsOnce | src/components/ChatArea.tsx:74-87 | a key press sends exactly what the send button would, only for Enter without Shift, and a second Enter straight after a send sends nothing |
| ChatArea.LoadingChanged | src/components/ChatArea.tsx:29-45 | when loading stops both typing flags are cleared and nothing else changes, pending timers included; when it starts the cycle restarts at the first index, with the text unchanged |
| ChatArea.Tick | src/components/ChatArea.tsx:39-42 | each interval moves to the next loading message, wrapping round, and the index stays in range |
| ChatArea.TicksCycle | src/components/ChatArea.tsx:38-42 | after n intervals from the start of loading, the indicator shows message n mod 8 |
| ChatArea.TypingEffect | src/components/ChatArea.tsx:47-61 | while loading, once the last message is an assistant message with content, the animation timer and then the typing timer are scheduled; otherwise nothing changes |
| ChatArea.FireNext | src/components/ChatArea.tsx:51-58 | the oldest pending timer fires: the animation timer shows the animation, the typing timer sets typing and the text "AI is responding"; the cycle index is kept |
| ChatArea.FireAll | src/components/ChatArea.tsx:51-58 | once every pending timer has fired none is left |
| ChatArea.FireAllSets | src/components/ChatArea.tsx:51-58 | after the pending timers fire, the animation shows exactly when it did or an animation timer was pending, and typing (with "AI is responding") exactly when it was or a typing timer was pending |
| ChatArea.TypingObserved | src/components/ChatArea.tsx:47-61 | while an answer with content is loading, the typing effect and its timers end with both flags set and the text "AI is responding" |
| ChatArea.StopClearsTyping | src/components/ChatArea.tsx:29-61 | stopping the loading clears both flags at once, but the typing timers are not cancelled: once they fire, typing is back exactly when a typing timer was pending, and the animation exactly when an animation timer was |
| Auth.GetToken | src/lib/auth.ts:58-60 | the token is present exactly when the cookie is non-empty, and it is then the cookie |
| Auth.SetToken | src/lib/auth.ts:47-53 | storing a token touches the cookie only: the cached user and the window location stay |
| Auth.SetTokenRoundTrip | src/lib/auth.ts:47-60 | a stored token reads back as itself, and the empty token reads back as none |
| Auth.RemoveToken | src/lib/auth.ts:65-68 | afterwards there is no token and no cached user |
| Auth.SetUser | src/lib/auth.ts:73-75 | caching a user fills the user slot and leaves the cookie and the window location alone |
| Auth.GetUser | src/lib/auth.ts:80-91 | a user is returned exactly when the cache holds a parsable user; an unparsable entry is deleted and reads as none |
| Auth.SetUserRoundTrip | src/lib/auth.ts:73-91 | a user stored with setUser reads back unchanged |
| Auth.GetUserSettles | src/lib/auth.ts:80-91 | reading the cache twice is reading it once |
| Auth.IsTokenValid | src/lib/auth.ts:96-109 | a valid token has exactly three dot-separated parts, and its middle part decodes to a non-zero exp later than now in seconds |
| Auth.WrongShapeInvalid | src/lib/auth.ts:99-100 | a token without exactly two dots is never valid |
| Auth.AssembledTokenValid | src/lib/auth.ts:99-104 | a token built from three dot-free parts is valid exactly when its payload decodes to a non-zero exp later than now; the header and signature are not checked |
| Auth.ValidityRunsOut | src/lib/auth.ts:103-104 | a token valid at some time was valid at every earlier time |
| Auth.IsAuthenticated | src/lib/auth.ts:114-117 | authenticated exactly when a non-empty stored token is valid now |
| Auth.GetAuthHeaders | src/lib/auth.ts:122-133 | the headers always carry JSON content and carry the bearer token exactly when a valid token is stored |
| Auth.RequestHeaders | src/lib/auth.ts:139-142 | the request's headers start with the default headers' names, in order, and are never fewer than the defaults |
| Auth.CallerHeadersWin | src/lib/auth.ts:139-142 | a header the caller gives is sent with the caller's value, even over the defaults; a default the caller omits is sent as the default |
| Auth.AuthenticatedFetch | src/lib/auth.ts:138-156 | the reply is handed back unchanged; a 401 or 403 evicts token and user and sends the window to the sign-in page, and any other reply leaves the store alone |
| Auth.AuthErrorLogsOut | src/lib/auth.ts:150-153 | after a 401 or 403 nobody is authenticated and no user is cached, whatever the clock says |
| Auth.UserInfoUrl | src/lib/auth.ts:163 | the user lookup asks for /auth/me under the configured API base, or under http://localhost:8001 when none or an empty one is configured |
| Auth.FetchUserInfo | src/lib/auth.ts:161-174 | a user is returned exactly when the reply is a 2xx with a readable body, and it is then cached; any failure yields none |
| Auth.FetchedUserCached | src/lib/auth.ts:165-168 | after a successful lookup the cache reads back the returned user |
| Auth.Login | src/lib/auth.ts:193-201 | login succeeds exactly when the user lookup made with the new token succeeds; on failure the token and the cached user are gone and the error names the failed lookup |
| Auth.LoginKeepsToken | src/lib/auth.ts:193-200 | after a successful login the cookie holds the new token |
| Auth.Logout | src/lib/auth.ts:206-209 | afterwards there is no token and no cached user, and the window goes to the sign-in page |
| Api.ApiBaseUrl | src/lib/api.ts:7 | the configured base URL wins when non-empty; otherwise it is https://jarvis-api.orangehealth.dev |
| Api.BodyOr | src/lib/api.ts:64-73 | only a 2xx reply with a readable body yields the body; a thrown request, another status or an unreadable body yields the fallback |
| Api.Perform | src/lib/api.ts:58-74 | every CRUD call sends its request through the authenticated fetch, keeps the store that fetch leaves, and reads the reply as the body or the method's sentinel |
| Api.GetUserChats | src/lib/api.ts:58-74 | the request asks for GET /chats with the given limit (50 when omitted), and the result is the body or an empty list |
| Api.GetChat | src/lib/api.ts:79-95 | the request asks for GET /chats/{id}, and the result is the body or none |
| Api.CreateChat | src/lib/api.ts:100-125 | the request is a POST to /chats, and the result is the body or none |
| Api.AddMessage | src/lib/api.ts:130-150 | the request is a POST to /chats/{id}/messages, and the result is the body or none |
| Api.UpdateChatTitle | src/lib/api.ts:174-194 | the request is a PUT to /chats/{id}, and the result is the body or none |
| Api.DeleteChat | src/lib/api.ts:155-169 | the result is true exactly when the reply is a 2xx; a thrown request gives false; the store is what the authenticated request left |
| Api.FailuresAreSentinels | src/lib/api.ts:64-73 | thrown requests and non-2xx statuses read as an empty list, none or false, and leave the session alone unless the status is 401 or 403 |
| Api.SuccessPassesBody | src/lib/api.ts:85-86 | a 2xx reply's body is returned as it is, and a 2xx delete is true even without a body |
| Api.AuthStreamParams | src/lib/api.ts:199-205 | k and alpha fall back to 20 and 0.3 only when omitted; a given k is sent as given |
| Api.GetAuthenticatedStreamUrl | src/lib/api.ts:207 | the URL starts with the ask-stream endpoint of the API base and a `?` |
| Api.AuthStreamUrlKeepsZero | src/lib/api.ts:199-208 | reading the query back gives q, k, alpha, detailed_response=true in order, with an explicit 0 kept, where the configuration's builder sends 10 and 0.3 |
| Api.CreateAuthenticatedStream | src/lib/api.ts:214-250 | without a valid token the result is null; a thrown fetch is rethrown; a non-2xx status throws "HTTP status: text - body"; a missing body throws "Response body is null"; otherwise the stream opens with the bearer token and event-stream headers |
| Api.StreamUsesSessionCredential | src/lib/api.ts:222-231 | an opened stream carries the same bearer credential the authenticated requests send, and asks for no caching |
| Api.StreamFailureNamesStatus | src/lib/api.ts:236-238 | two failed stream requests that throw the same error had the same status: the error names the status |
| Api.CreateAuthenticatedEventSource | src/lib/api.ts:255-271 | without a valid token the result is none; otherwise the URL is followed by `&` if it already had a `?` (else `?`), then token= and the encoded token |
| Api.EventSourceUrlOneQuery | src/lib/api.ts:265-266 | the token never opens a second query: the result has one `?` when the URL had none, and otherwise as many as the URL |
| AuthProvider.IsAuthenticated | src/components/AuthProvider.tsx:41 | the provider is authenticated exactly when its token is non-empty and valid |
| AuthProvider.Login | src/components/AuthProvider.tsx:13-22 | the session takes the token and the user only after the service login succeeds; on failure the error is rethrown and the session is unchanged |
| AuthProvider.LoginSyncsCookie | src/components/AuthProvider.tsx:13-17 | after a successful sign-in with a non-empty token, the session and the cookie agree on it |
| AuthProvider.Logout | src/components/AuthProvider.tsx:24-28 | both token and user are cleared, in the session and in the store |
| AuthProvider.RefreshUser | src/components/AuthProvider.tsx:30-39 | a user that comes back replaces the session's user; otherwise the session's user stays |
| AuthProvider.InitializeAuth | src/components/AuthProvider.tsx:44-73 | a missing or invalid stored token clears the store and the session; a valid one is adopted with the cached user, or else the looked-up user; loading ends either way |
| AuthProvider.CachedUserNoFetch | src/components/AuthProvider.tsx:50-54 | with a valid token and a cached user, start-up makes no request: its outcome does not depend on the lookup's reply |
| AuthProvider.InitializeAuthAgrees | src/components/AuthProvider.tsx:44-73 | start-up leaves the provider authenticated exactly when the stored token was valid, and the session and the cookie agree unless the lookup was answered with 401 or 403 |
| AuthProvider.InitializeAuthDesync | src/components/AuthProvider.tsx:55-61 | a 401 on the start-up lookup leaves the provider authenticated while the cookie is gone |
| AuthCallback.HandleCallback | src/app/auth/callback/page.tsx:16-44 | an error parameter wins, with no login attempt; without a token there is nothing to log in with; a login is attempted exactly when there is a token and no error, and navigation to / happens only if it succeeds, otherwise "Failed to complete authentication" |
| AuthCallback.NavigatesOnlySignedIn | src/app/auth/callback/page.tsx:34-37 | the page only goes home with a signed-in session holding the received token, which the cookie holds too |
| AuthCallback.FailureKeepsSession | src/app/auth/callback/page.tsx:21-43 | a failed callback leaves the provider's session as it was |

## Left out

- Network I/O, `EventSource`, `fetch` and the health route are left out. A reply is an input, and
  the stream's events are a sequence handed to `ChatStream.ApplyEvents`.
- React scheduling and timer delays are left out. State updates are applied in order. The two
  typing timers are a queue that fires oldest first (`ChatArea.FireNext`), which matches their
  delays, and each interval is one `ChatArea.Tick`. User actions are not interleaved with stream
  events.
- The placeholder object the chat shares with the stream handlers is tracked by message id: while
  it is shared, a change to it shows in every chat holding a message with its id
  (`ChatStream.WriteThrough`).
- The "first exchange" test of the completed handler reads a stale snapshot of the current chat
  (src/components/ChatInterface.tsx:302). It is a parameter of the stream (`firstExchange`). With
  that snapshot, taken before the question was added, a second exchange (two earlier messages)
  retitles the chat too.
- `sendMessage` awaits `streamAIResponse`, but that returns as soon as the handlers are attached.
  So the loading flag clears before any answer arrives. The loading flag of the chat page is
  therefore not modelled; `ChatArea` takes it as an argument.
- Dates are integer clock readings. Ids (`Date.now()`, `Math.random()`) are arguments.
- Strings are sequences of Unicode scalar values, not UTF-16 code units, so lengths and cut points
  differ from the browser's for characters outside the Basic Multilingual Plane.
- ChatStream.DeriveTitle: `toUpperCase` is modelled for the letters a-z only; other letters are kept
  as they are.
- Numbers are integers or reals. NaN, infinities and the exponent notation of `String(x)` are not
  modelled. `k` is an integer. Every alpha, integral or not, is rendered by the library function
  `Url.Codecs.numberToString`, whose output the model does not fix.
- The JSON bodies of the CRUD requests, `JSON.parse` of the answers and the Google login URL
  (`initiateGoogleLogin`) are left out; the answers' bodies are inputs.
- Auth.FetchUserInfo: a 2xx answer whose JSON is `null` is not distinguished from an unreadable body.
- `handleOAuthRedirect` (window location and history) and `window.open`/`document.write` of a
  source card are left out.
- The language badge colours, the relevance percentage (`toFixed`), button labels and markdown
  rendering are presentation only and are left out.
- The sidebar bounds computed from window percentages (src/components/ChatInterface.tsx:31-32,
  52-53) are left out; `SourcesSidebar.DragWidth` takes the bounds as arguments.
- The other UI files (navbar, sidebar, settings panel, install prompt, sign-in page, layout) and
  RepositoryInfo.tsx are not part of this model. RepositoryInfo.tsx imports names `src/lib/api.ts`
  does not define.
- AuthProvider.InitializeAuth: the `catch` that removes the token after a failed user lookup cannot
  run, because `fetchUserInfo` catches every error itself; the model has no such branch.

## Notes

- The chat title keeps the first six words (`maxTitleWords` is 6 in src/config/app.config.ts:41).
- The application uses three different fallback API bases:
  - https://jarvis.orangehealth.dev in the configuration (src/config/app.config.ts:9);
  - https://jarvis-api.orangehealth.dev in the CRUD client (src/lib/api.ts:7);
  - http://localhost:8001 in the auth service (src/lib/auth.ts:163).
  The first is `AppConfig.BaseUrl`, the second `Api.ApiBaseUrl`, the third `Auth.UserInfoUrl`.
- `buildStreamUrl` sends 10 and 0.3 for an explicit 0, while `getAuthenticatedStreamUrl` sends the 0
  (`Api.AuthStreamUrlKeepsZero`).
- Stream handlers write into whichever chat is current when an event arrives. If another chat is
  selected mid-stream, the completed handler retitles that chat (`ChatStream.CompletedRetitles`).
- A 401 or 403 on the start-up user lookup clears the cookie, but the provider keeps the token and
  reports itself authenticated (`AuthProvider.InitializeAuthDesync`).
- A repository named "blob" is labelled "Orange-Health" (`SourcesSidebar.BlobRepoLabel`).
