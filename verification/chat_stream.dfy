/** The streamed answer of `ChatInterface.streamAIResponse`: the placeholder
    assistant message, and the handlers of the event-stream connection
    (default `message` channel, `sources`, `answer_chunk`, `status`, the
    error handler and `completed`). The connection itself is not modelled:
    its events arrive as inputs, each with its JSON payload already parsed
    (or `None` when `JSON.parse` threw). */
module ChatStream {
  import opened JsValues
  import opened JsStrings
  import opened ChatTypes
  import opened AppConfig
  import opened ChatInterface

  /** A source record as the backend sends it. */
  datatype RawSource = RawSource(
    repoName: Option<string>,
    path: Option<string>,
    preview: Option<string>,
    language: Option<string>,
    fileType: Option<string>,
    relevanceScore: Option<real>)

  /** The fields of an event payload the handlers look at; a field the
      payload lacks is `None`. */
  datatype Payload = Payload(sources: Option<seq<RawSource>>, chunk: Option<string>)

  datatype StreamEvent =
    | OnMessage(data: Option<Payload>)
    | OnSources(data: Option<Payload>)
    | OnAnswerChunk(data: Option<Payload>)
    | OnStatus(data: Option<Payload>)
    | OnError
    | OnCompleted

  /** The handlers' shared closure: the in-flight assistant message, whether
      the connection is still open, the question asked, whether the page
      counted this as the chat's first exchange, and whether the chat still
      holds the in-flight message object itself. Until the first copy is
      published the placeholder in the chat and the in-flight message are
      one object, so a change to one is a change to the other. */
  datatype Stream = Stream(assistant: Message, open: bool, question: string, firstExchange: bool, shared: bool)

  datatype Live = Live(conv: Conversation, stream: Stream)

  /** The display title of a source. */
  function SourceTitle(raw: RawSource): (t: string)
    ensures t != ""
    ensures Truthy(raw.repoName) && Truthy(raw.path) ==> t == raw.repoName.value + "/" + raw.path.value
    ensures !(Truthy(raw.repoName) && Truthy(raw.path)) && Truthy(raw.path) ==> t == raw.path.value
    ensures !Truthy(raw.path) ==> t == "Unknown File"
  {
    if Truthy(raw.repoName) && Truthy(raw.path) then raw.repoName.value + "/" + raw.path.value
    else OrElse(raw.path, "Unknown File")
  }

  /** The `index`-th backend record as a `Source`: identified by its
      position, titled and linked from its repository and path, described
      by its preview, never flagged as test or configuration file. */
  function FormatSource(raw: RawSource, index: nat): (s: Source)
    ensures s.id == "source-" + NatToString(index)
    ensures s.title == SourceTitle(raw) && s.url == GenerateGitHubUrl(raw.repoName, raw.path)
    ensures s.description == Some(if Truthy(raw.preview) then raw.preview.value else "No description available")
    ensures s.language == raw.language && s.fileType == raw.fileType && s.relevanceScore == raw.relevanceScore
    ensures s.isTest.None? && s.isConfig.None?
  {
    Source(
      "source-" + NatToString(index),
      SourceTitle(raw),
      GenerateGitHubUrl(raw.repoName, raw.path),
      Some(OrElse(raw.preview, "No description available")),
      raw.language,
      raw.fileType,
      raw.relevanceScore,
      None,
      None)
  }

  /** `data.sources.map(formatSource)`. */
  function FormatSources(raws: seq<RawSource>): (r: seq<Source>)
    ensures |r| == |raws|
    ensures forall i :: 0 <= i < |raws| ==> r[i] == FormatSource(raws[i], i)
  {
    seq(|raws|, i requires 0 <= i < |raws| => FormatSource(raws[i], i))
  }

  /** Formatted sources carry pairwise distinct ids `source-0`,
      `source-1`, ..., always have a description, and are never flagged as
      test or configuration files. */
  lemma FormattedSourcesWellFormed(raws: seq<RawSource>)
    ensures var r := FormatSources(raws);
            && (forall i, j :: 0 <= i < j < |r| ==> r[i].id != r[j].id)
            && (forall i :: 0 <= i < |r| ==> r[i].description.Some? && r[i].description.value != "")
            && (forall i :: 0 <= i < |r| ==> r[i].isTest.None? && r[i].isConfig.None?)
  {
    var r := FormatSources(raws);
    forall i, j | 0 <= i < j < |r| ensures r[i].id != r[j].id {
      NatToStringInjective(i, j);
      var p := "source-";
      assert r[i].id == p + NatToString(i) && r[j].id == p + NatToString(j);
      assert r[i].id[|p|..] == NatToString(i);
      assert r[j].id[|p|..] == NatToString(j);
    }
  }

  /** A source links to GitHub exactly when its title was built from the
      repository name and the path, and then the link ends with that path. */
  lemma SourceLinkMatchesTitle(raw: RawSource, index: nat)
    ensures var s := FormatSource(raw, index);
            && (s.url != "#" <==> Truthy(raw.repoName) && Truthy(raw.path))
            && (s.url != "#" ==> s.title == raw.repoName.value + "/" + raw.path.value)
            && (s.url == "#" ==> s.title == OrElse(raw.path, "Unknown File"))
  {
  }

  /** `userMessage.split(' ').slice(0, maxTitleWords).join(' ')`: the
      question's first six space-separated words, as a prefix of it. */
  function FirstWords(text: string): (r: string)
    ensures r <= text
    ensures var w := Split(text, ' ');
      Split(r, ' ') == if |w| <= MaxTitleWords then w else w[..MaxTitleWords]
    ensures |Split(text, ' ')| <= MaxTitleWords ==> r == text
    ensures r == "" <==> text == ""
  {
    var words := Split(text, ' ');
    var kept := if |words| <= MaxTitleWords then words else words[..MaxTitleWords];
    JoinSplitPrefix(text, ' ', |kept|);
    assert words[..|kept|] == kept;
    JoinSplit(text, ' ');
    assert forall i :: 0 <= i < |kept| ==> kept[i] == words[i];
    SplitJoin(kept, ' ');
    assert |kept| > 1 ==> Join(kept, ' ') == kept[0] + [' '] + Join(kept[1..], ' ');
    Join(kept, ' ')
  }

  /** A question of more than six words is cut at the space that ends its
      sixth word: the kept words are followed in the question by a space. */
  lemma LongQuestionCutAtSpace(text: string)
    requires |Split(text, ' ')| > MaxTitleWords
    ensures |FirstWords(text)| < |text| && text[|FirstWords(text)|] == ' '
  {
    var words := Split(text, ' ');
    var kept := words[..MaxTitleWords];
    assert words == kept + words[MaxTitleWords..];
    JoinAppend(kept, words[MaxTitleWords..], ' ');
    JoinSplit(text, ' ');
    SplitJoin(kept, ' ');
    assert FirstWords(text) == Join(kept, ' ') by {
      var r := FirstWords(text);
      JoinSplit(r, ' ');
    }
  }

  /** The chat title derived from the question on completion: the first six
      words, cut to 50 characters plus "..." when longer, first letter
      upper-cased, "Untitled Conversation" when that leaves nothing. */
  function DeriveTitle(question: string): (t: string)
    ensures t != ""
    ensures |t| <= ChatTitleMaxLength + 3
    ensures question == "" ==> t == "Untitled Conversation"
    ensures question != "" && |FirstWords(question)| <= ChatTitleMaxLength ==>
      t == CapitalizeFirst(FirstWords(question))
    ensures question != "" && |FirstWords(question)| > ChatTitleMaxLength ==>
      t == CapitalizeFirst(FirstWords(question)[..ChatTitleMaxLength]) + "..."
  {
    var words := FirstWords(question);
    var title := if |words| > ChatTitleMaxLength then Take(words, ChatTitleMaxLength) + "..." else words;
    var finalTitle := CapitalizeFirst(title);
    if finalTitle == "" then "Untitled Conversation" else finalTitle
  }

  /** A short question of at most six words and fifty characters becomes
      its own title, first letter capitalised; any other title, without its
      trailing "...", capitalises a prefix of the question. */
  lemma ShortQuestionIsTitle(question: string)
    requires question != ""
    requires |Split(question, ' ')| <= MaxTitleWords && |question| <= ChatTitleMaxLength
    ensures DeriveTitle(question) == CapitalizeFirst(question)
  {
  }

  /** A question of more than six words is titled by the text before the
      space ending its sixth word: that text splits into exactly the first
      six words, and when it fits in fifty characters it is the title,
      first letter capitalised. */
  lemma LongQuestionTitle(question: string)
    requires |Split(question, ' ')| > MaxTitleWords
    ensures var k := |FirstWords(question)|;
            && k < |question| && question[k] == ' '
            && Split(question[..k], ' ') == Split(question, ' ')[..MaxTitleWords]
            && (k <= ChatTitleMaxLength ==> DeriveTitle(question) == CapitalizeFirst(question[..k]))
  {
    LongQuestionCutAtSpace(question);
    assert question[..|FirstWords(question)|] == FirstWords(question);
  }

  /** `connectionError + " " + baseUrl + "."`. */
  function ConnectionErrorText(baseUrl: string): (r: string)
    ensures |r| == |ConnectionError| + |baseUrl| + 2
    ensures ConnectionError <= r && r[|r| - 1] == '.'
    ensures r[|ConnectionError| + 1..|r| - 1] == baseUrl
  {
    ConnectionError + " " + baseUrl + "."
  }

  /** `messages.map(msg => msg.id === m.id ? m : msg)`. */
  function ReplaceMessage(ms: seq<Message>, m: Message): (r: seq<Message>)
    ensures |r| == |ms|
    ensures forall i :: 0 <= i < |ms| ==> r[i] == if ms[i].id == m.id then m else ms[i]
  {
    seq(|ms|, i requires 0 <= i < |ms| => if ms[i].id == m.id then m else ms[i])
  }

  /** The functional update every handler applies: without a current chat
      nothing changes; otherwise `change` is applied to the current chat and
      every list entry with its id is replaced by the result. */
  function UpdateCurrent(st: Conversation, updated: Chat): (r: Conversation)
    requires st.current.Some? ==> updated.id == st.current.value.id
    ensures st.current.None? ==> r == st
    ensures st.current.Some? ==>
      r == Conversation(ReplaceChat(st.chats, st.current.value.id, updated), Some(updated), st.sources)
    ensures Synced(st) ==> Synced(r)
  {
    if st.current.None? then st
    else
      ReplaceCurrentSynced(st, updated);
      Conversation(ReplaceChat(st.chats, st.current.value.id, updated), Some(updated), st.sources)
  }

  /** A chat in which the message with `m`'s id has been changed in place
      into `m`; the chat's own timestamps do not move. */
  function WithMessage(c: Chat, m: Message): (r: Chat)
    ensures r == c.(messages := ReplaceMessage(c.messages, m))
  {
    c.(messages := ReplaceMessage(c.messages, m))
  }

  /** An in-place change to a message object seen from the state: every
      chat, in the list and as current, that holds a message with `m`'s id
      shows `m` there; the chats stay where they are. */
  function WriteThrough(st: Conversation, m: Message): (r: Conversation)
    ensures |r.chats| == |st.chats|
    ensures forall i :: 0 <= i < |st.chats| ==> r.chats[i] == WithMessage(st.chats[i], m)
    ensures st.current.None? ==> r.current.None?
    ensures st.current.Some? ==> r.current == Some(WithMessage(st.current.value, m))
    ensures r.sources == st.sources
    ensures Synced(st) ==> Synced(r)
  {
    var chats := seq(|st.chats|, i requires 0 <= i < |st.chats| => WithMessage(st.chats[i], m));
    match st.current
    case None => Conversation(chats, None, st.sources)
    case Some(cur) =>
      assert cur in st.chats ==> WithMessage(cur, m) in chats by {
        if cur in st.chats {
          var i :| 0 <= i < |st.chats| && st.chats[i] == cur;
          assert chats[i] == WithMessage(cur, m);
        }
      }
      Conversation(chats, Some(WithMessage(cur, m)), st.sources)
  }

  /** Changing the in-flight message: while the chat still shares it, the
      change shows in the chat at once; otherwise only the closure sees it. */
  function Mutate(x: Live, m: Message): (r: Live)
    ensures r.stream == x.stream.(assistant := m)
    ensures x.stream.shared ==> r.conv == WriteThrough(x.conv, m)
    ensures !x.stream.shared ==> r.conv == x.conv
  {
    Live(if x.stream.shared then WriteThrough(x.conv, m) else x.conv, x.stream.(assistant := m))
  }

  /** Publishes a copy of the in-flight message into the current chat. */
  function Publish(st: Conversation, m: Message, now: int): (r: Conversation)
    ensures st.current.None? ==> r == st
    ensures st.current.Some? ==> (r.current.Some? &&
      r.current.value.messages == ReplaceMessage(st.current.value.messages, m))
    ensures r.sources == st.sources
    ensures Synced(st) ==> Synced(r)
  {
    if st.current.None? then st
    else
      var cur := st.current.value;
      UpdateCurrent(st, cur.(messages := ReplaceMessage(cur.messages, m), updatedAt := now))
  }

  /** Opening the stream: an empty assistant placeholder with an empty
      source list is appended to the current chat, which from then on
      shares it with the handlers; the panel and the other chats stay. */
  function StartStream(st: Conversation, question: string, assistantId: string, firstExchange: bool, now: int): (r: Live)
    ensures r.stream.open && r.stream.assistant.content == "" && r.stream.assistant.role == Assistant
    ensures r.stream.assistant == Message(assistantId, "", Assistant, now, Some([]))
    ensures r.stream.question == question && r.stream.firstExchange == firstExchange
    ensures r.stream.shared <==> st.current.Some?
    ensures st.current.Some? ==>
      && r.conv.current == Some(st.current.value.(
           messages := st.current.value.messages + [r.stream.assistant],
           updatedAt := now))
      && r.conv.chats == ReplaceChat(st.chats, st.current.value.id, r.conv.current.value)
      && r.conv.sources == st.sources
    ensures st.current.None? ==> r.conv == st
    ensures Synced(st) ==> Synced(r.conv)
  {
    var placeholder := Message(assistantId, "", Assistant, now, Some([]));
    var conv :=
      if st.current.None? then st
      else
        var cur := st.current.value;
        UpdateCurrent(st, cur.(messages := cur.messages + [placeholder], updatedAt := now));
    Live(conv, Stream(placeholder, true, question, firstExchange, st.current.Some?))
  }

  /** The catch of `streamAIResponse`: when the connection cannot even be
      set up, a separate assistant message carrying the connection error
      and the exception's message (or the generic error) is appended. */
  function SetupFailed(st: Conversation, baseUrl: string, error: Option<string>, messageId: string, now: int): (r: Conversation)
    ensures st.current.Some? ==> (r.current.Some? &&
      |r.current.value.messages| == |st.current.value.messages| + 1 &&
      r.current.value.messages[..|st.current.value.messages|] == st.current.value.messages)
    ensures st.current.Some? ==> var m := r.current.value.messages[|r.current.value.messages| - 1];
      && m == Message(messageId, m.content, Assistant, now, None)
      && m.content == ConnectionErrorText(baseUrl) + "\n\nError: " + error.GetOr(GenericError)
    ensures st.current.Some? ==>
      && r.current.value == st.current.value.(messages := r.current.value.messages, updatedAt := now)
      && r.chats == ReplaceChat(st.chats, st.current.value.id, r.current.value)
      && r.sources == st.sources
    ensures st.current.None? ==> r == st
    ensures Synced(st) ==> Synced(r)
  {
    var detail := match error case Some(e) => e case None => GenericError;
    var fallback := Message(messageId, ConnectionErrorText(baseUrl) + "\n\nError: " + detail, Assistant, now, None);
    if st.current.None? then st
    else
      var cur := st.current.value;
      var r := UpdateCurrent(st, cur.(messages := cur.messages + [fallback], updatedAt := now));
      assert r.current.value.messages[..|cur.messages|] == cur.messages;
      r
  }

  /** A `sources` field replaces the sources panel and the in-flight
      message's sources wholesale. No copy is published: the chat sees the
      new sources only while it still shares the in-flight message. */
  function ApplySources(x: Live, sources: Option<seq<RawSource>>): (r: Live)
    ensures sources.None? ==> r == x
    ensures sources.Some? ==> var f := FormatSources(sources.value);
      var m := x.stream.assistant.(sources := Some(f));
      && r.stream == x.stream.(assistant := m)
      && (x.stream.shared ==> r.conv == WriteThrough(x.conv, m).(sources := f))
      && (!x.stream.shared ==> r.conv == x.conv.(sources := f))
  {
    match sources
    case None => x
    case Some(raws) =>
      var f := FormatSources(raws);
      var y := Mutate(x, x.stream.assistant.(sources := Some(f)));
      Live(y.conv.(sources := f), y.stream)
  }

  /** A non-empty `chunk` field is appended to the in-flight message, and a
      copy of it is published; from then on the chat holds copies only. */
  function ApplyChunk(x: Live, chunk: Option<string>, now: int): (r: Live)
    ensures !Truthy(chunk) ==> r == x
    ensures Truthy(chunk) ==>
      && r.stream == x.stream.(assistant := x.stream.assistant.(content := x.stream.assistant.content + chunk.value), shared := false)
      && r.conv == Publish(Mutate(x, r.stream.assistant).conv, r.stream.assistant, now)
  {
    if !Truthy(chunk) then x
    else
      var m := x.stream.assistant.(content := x.stream.assistant.content + chunk.value);
      var y := Mutate(x, m);
      Live(Publish(y.conv, m, now), y.stream.(shared := false))
  }

  /** One event reaching the handlers. Nothing reaches a closed connection;
      a payload that failed to parse is skipped; the error handler and
      `completed` close the connection. */
  function ApplyEvent(x: Live, ev: StreamEvent, baseUrl: string, now: int): (r: Live)
    ensures !x.stream.open ==> r == x
    ensures ev.OnStatus? ==> r == x
    ensures x.stream.open && (ev.OnError? || ev.OnCompleted?) ==> !r.stream.open
    ensures !(ev.OnError? || ev.OnCompleted?) ==> r.stream.open == x.stream.open
    ensures r.stream.question == x.stream.question && r.stream.firstExchange == x.stream.firstExchange
    ensures r.stream.assistant.id == x.stream.assistant.id && r.stream.assistant.role == x.stream.assistant.role
    ensures !(ev.OnMessage? || ev.OnSources?) ==> r.conv.sources == x.conv.sources
    ensures Synced(x.conv) ==> Synced(r.conv)
  {
    if !x.stream.open then x
    else match ev
      case OnMessage(data) =>
        if data.None? then x else ApplyChunk(ApplySources(x, data.value.sources), data.value.chunk, now)
      case OnSources(data) =>
        if data.None? then x else ApplySources(x, data.value.sources)
      case OnAnswerChunk(data) =>
        if data.None? then x else ApplyChunk(x, data.value.chunk, now)
      case OnStatus(_) => x
      case OnError =>
        var closed := x.stream.(open := false);
        if x.stream.assistant.content != "" then Live(x.conv, closed)
        else
          var m := x.stream.assistant.(content := ConnectionErrorText(baseUrl));
          var y := Mutate(x, m);
          Live(Publish(y.conv, m, now), closed.(assistant := m, shared := false))
      case OnCompleted =>
        var closed := x.stream.(open := false);
        if !x.stream.firstExchange || x.conv.current.None? then Live(x.conv, closed)
        else
          var cur := x.conv.current.value;
          Live(UpdateCurrent(x.conv, cur.(title := DeriveTitle(x.stream.question))), closed)
  }

  /** The events in arrival order. Closing is for good, and the question,
      the first-exchange flag and the in-flight message's identity are
      those the stream was opened with. */
  function ApplyEvents(x: Live, evs: seq<StreamEvent>, baseUrl: string, now: int): (r: Live)
    ensures r.stream.open ==> x.stream.open
    ensures r.stream.question == x.stream.question && r.stream.firstExchange == x.stream.firstExchange
    ensures r.stream.assistant.id == x.stream.assistant.id && r.stream.assistant.role == x.stream.assistant.role
    decreases |evs|
  {
    if |evs| == 0 then x
    else ApplyEvent(ApplyEvents(x, evs[..|evs| - 1], baseUrl, now), evs[|evs| - 1], baseUrl, now)
  }

  /** The in-flight message as published in the current chat: every
      message there with its id shows its content. */
  predicate Mirrors(x: Live) {
    x.conv.current.Some? ==>
      forall i :: (0 <= i < |x.conv.current.value.messages| &&
        x.conv.current.value.messages[i].id == x.stream.assistant.id) ==>
        x.conv.current.value.messages[i].content == x.stream.assistant.content
  }

  lemma StartStreamMirrors(st: Conversation, question: string, assistantId: string, firstExchange: bool, now: int)
    requires st.current.Some? ==> forall i :: 0 <= i < |st.current.value.messages| ==>
      st.current.value.messages[i].id != assistantId
    ensures Mirrors(StartStream(st, question, assistantId, firstExchange, now))
  {
  }

  /** `chunk` payloads on the `answer_chunk` channel. */
  function ChunkEvents(chunks: seq<string>): (evs: seq<StreamEvent>)
    ensures |evs| == |chunks|
    ensures forall i :: 0 <= i < |chunks| ==> evs[i] == OnAnswerChunk(Some(Payload(None, Some(chunks[i]))))
  {
    seq(|chunks|, i requires 0 <= i < |chunks| => OnAnswerChunk(Some(Payload(None, Some(chunks[i])))))
  }

  /** The concatenation of `chunks` in order. */
  function Concat(chunks: seq<string>): string
    decreases |chunks|
  {
    if |chunks| == 0 then "" else Concat(chunks[..|chunks| - 1]) + chunks[|chunks| - 1]
  }

  /** Chunks delivered in order build the answer by order-preserving,
      lossless concatenation; the published copy follows along, the
      connection stays open, nothing but the in-flight message's content
      changes, and the chat stops sharing the message with the first
      non-empty chunk. */
  lemma {:induction false} ChunksAccumulate(x: Live, chunks: seq<string>, baseUrl: string, now: int)
    requires x.stream.open && Mirrors(x)
    ensures var y := ApplyEvents(x, ChunkEvents(chunks), baseUrl, now);
            && y.stream == x.stream.(assistant := x.stream.assistant.(content := x.stream.assistant.content + Concat(chunks)),
                                     shared := x.stream.shared && Concat(chunks) == "")
            && Mirrors(y)
            && y.conv.sources == x.conv.sources
            && (x.conv.current.Some? <==> y.conv.current.Some?)
    decreases |chunks|
  {
    if |chunks| > 0 {
      var init := chunks[..|chunks| - 1];
      assert ChunkEvents(chunks)[..|chunks| - 1] == ChunkEvents(init);
      ChunksAccumulate(x, init, baseUrl, now);
      var y := ApplyEvents(x, ChunkEvents(init), baseUrl, now);
      var c := chunks[|chunks| - 1];
      var z := ApplyEvent(y, ChunkEvents(chunks)[|chunks| - 1], baseUrl, now);
      assert z == ApplyChunk(y, Some(c), now);
      assert x.stream.assistant.content + Concat(init) + c == x.stream.assistant.content + Concat(chunks);
      assert z.stream.assistant == x.stream.assistant.(content := x.stream.assistant.content + Concat(chunks));
      assert Concat(chunks) == "" <==> Concat(init) == "" && c == "";
    }
  }

  /** A chunk touches only the in-flight message: every other message of
      the current chat keeps its place and value. */
  lemma ChunkLeavesOthers(x: Live, chunk: string, now: int, i: int)
    requires x.stream.open && chunk != "" && x.conv.current.Some?
    requires 0 <= i < |x.conv.current.value.messages|
    requires x.conv.current.value.messages[i].id != x.stream.assistant.id
    ensures var y := ApplyEvent(x, OnAnswerChunk(Some(Payload(None, Some(chunk)))), "", now);
            && y.conv.current.Some?
            && |y.conv.current.value.messages| == |x.conv.current.value.messages|
            && y.conv.current.value.messages[i] == x.conv.current.value.messages[i]
  {
  }

  /** A later `sources` event replaces an earlier one: afterwards the panel
      and the in-flight message hold exactly the second list, formatted. */
  lemma SecondSourcesWin(x: Live, first: seq<RawSource>, second: seq<RawSource>, baseUrl: string, now: int)
    requires x.stream.open
    ensures var y := ApplyEvents(x, [OnSources(Some(Payload(Some(first), None))), OnSources(Some(Payload(Some(second), None)))], baseUrl, now);
            && y.conv.sources == FormatSources(second)
            && y.stream.assistant.sources == Some(FormatSources(second))
            && y.stream.assistant.content == x.stream.assistant.content
  {
    var evs := [OnSources(Some(Payload(Some(first), None))), OnSources(Some(Payload(Some(second), None)))];
    assert evs[..1][..0] == [];
    assert ApplyEvents(x, evs[..1], baseUrl, now) == ApplyEvent(x, evs[0], baseUrl, now);
  }

  /** Sources that arrive before any chunk reach the chat itself, through
      the placeholder it shares with the handlers: after `completed`,
      reopening the chat shows them. */
  lemma EarlySourcesReachChat(st: Conversation, question: string, assistantId: string, firstExchange: bool,
                              now: int, raws: seq<RawSource>, baseUrl: string)
    requires st.current.Some?
    ensures var y := ApplyEvents(StartStream(st, question, assistantId, firstExchange, now),
                                 [OnSources(Some(Payload(Some(raws), None))), OnCompleted], baseUrl, now);
            && y.conv.current.Some?
            && ReopenedSources(y.conv.current.value.messages) == FormatSources(raws)
  {
    var x := StartStream(st, question, assistantId, firstExchange, now);
    var evs := [OnSources(Some(Payload(Some(raws), None))), OnCompleted];
    assert evs[..1][..0] == [];
    var a := ApplyEvent(x, evs[0], baseUrl, now);
    assert ApplyEvents(x, evs[..1], baseUrl, now) == a;
    var m := x.stream.assistant.(sources := Some(FormatSources(raws)));
    var ms := a.conv.current.value.messages;
    assert ms == ReplaceMessage(x.conv.current.value.messages, m);
    assert ms[|ms| - 1] == m;
    var y := ApplyEvent(a, OnCompleted, baseUrl, now);
    assert y.conv.current.value.messages == ms;
  }

  /** Once a chunk has published a copy, later sources reach only the panel
      and the in-flight message: the chats, in the list and as current, are
      left as the chunk left them. */
  lemma LateSourcesMissChat(x: Live, chunk: string, raws: seq<RawSource>, baseUrl: string, now: int)
    requires x.stream.open && chunk != ""
    ensures var y := ApplyEvent(x, OnAnswerChunk(Some(Payload(None, Some(chunk)))), baseUrl, now);
            var z := ApplyEvent(y, OnSources(Some(Payload(Some(raws), None))), baseUrl, now);
            && z.conv.chats == y.conv.chats && z.conv.current == y.conv.current
            && z.conv.sources == FormatSources(raws)
            && z.stream.assistant.sources == Some(FormatSources(raws))
  {
  }

  predicate Malformed(ev: StreamEvent) {
    (ev.OnMessage? || ev.OnSources? || ev.OnAnswerChunk? || ev.OnStatus?) && ev.data.None?
  }

  /** The events that parsed. */
  function WellFormed(evs: seq<StreamEvent>): seq<StreamEvent>
    decreases |evs|
  {
    if |evs| == 0 then []
    else WellFormed(evs[..|evs| - 1]) + (if Malformed(evs[|evs| - 1]) then [] else [evs[|evs| - 1]])
  }

  /** Payloads that fail to parse are skipped without effect: the stream
      ends exactly as if they had never arrived. */
  lemma {:induction false} MalformedSkipped(x: Live, evs: seq<StreamEvent>, baseUrl: string, now: int)
    ensures ApplyEvents(x, evs, baseUrl, now) == ApplyEvents(x, WellFormed(evs), baseUrl, now)
    decreases |evs|
  {
    if |evs| > 0 {
      var init := evs[..|evs| - 1];
      var last := evs[|evs| - 1];
      MalformedSkipped(x, init, baseUrl, now);
      var y := ApplyEvents(x, init, baseUrl, now);
      assert ApplyEvents(x, evs, baseUrl, now) == ApplyEvent(y, last, baseUrl, now);
      var w := WellFormed(evs);
      if Malformed(last) {
        assert w == WellFormed(init);
        assert ApplyEvent(y, last, baseUrl, now) == y;
      } else {
        assert w == WellFormed(init) + [last];
        assert w[..|w| - 1] == WellFormed(init) && w[|w| - 1] == last;
      }
    }
  }

  /** The error handler never discards partial output: content already
      received is kept as is; only an answer with no content yet is replaced
      by the connection error naming the backend. Either way the connection
      is closed. */
  lemma ErrorKeepsPartialContent(x: Live, baseUrl: string, now: int)
    requires x.stream.open
    ensures var y := ApplyEvent(x, OnError, baseUrl, now);
            && !y.stream.open
            && (x.stream.assistant.content != "" ==> y.conv == x.conv && y.stream.assistant == x.stream.assistant)
            && (x.stream.assistant.content == "" ==> y.stream.assistant.content == ConnectionErrorText(baseUrl))
            && (Mirrors(x) ==> Mirrors(y))
  {
  }

  /** Once the connection is closed, by an error or by `completed`, no
      further event changes anything. */
  lemma {:induction false} ClosedIgnoresEvents(x: Live, evs: seq<StreamEvent>, baseUrl: string, now: int)
    requires !x.stream.open
    ensures ApplyEvents(x, evs, baseUrl, now) == x
    decreases |evs|
  {
    if |evs| > 0 {
      ClosedIgnoresEvents(x, evs[..|evs| - 1], baseUrl, now);
    }
  }

  /** `completed` closes the connection and, on a first exchange, retitles
      the current chat (in the list too) with the derived title; otherwise
      the conversation is untouched. */
  lemma CompletedRetitles(x: Live, baseUrl: string, now: int)
    requires x.stream.open
    ensures var y := ApplyEvent(x, OnCompleted, baseUrl, now);
            && !y.stream.open
            && (x.stream.firstExchange && x.conv.current.Some? ==>
                 y.conv.current.Some? && y.conv.current.value.title == DeriveTitle(x.stream.question)
                 && y.conv.current.value.messages == x.conv.current.value.messages)
            && (!x.stream.firstExchange ==> y.conv == x.conv)
  {
  }

  /** Every handler keeps the current chat inside the chat list. */
  lemma {:induction false} EventsKeepSynced(x: Live, evs: seq<StreamEvent>, baseUrl: string, now: int)
    requires Synced(x.conv)
    ensures Synced(ApplyEvents(x, evs, baseUrl, now).conv)
    decreases |evs|
  {
    if |evs| > 0 {
      EventsKeepSynced(x, evs[..|evs| - 1], baseUrl, now);
    }
  }
}
