/** The conversation state of `ChatInterface` — the chat list, the current
    chat and the sources panel — and the user-driven transitions on it:
    mount, new chat, select chat, delete chat and send message. The
    streamed answer's transitions are in `ChatStream`. */
module ChatInterface {
  import opened JsValues
  import opened ChatTypes
  import opened AppConfig

  datatype Conversation = Conversation(chats: seq<Chat>, current: Option<Chat>, sources: seq<Source>)

  /** The current chat, when there is one, is an entry of the chat list:
      the list the sidebar shows and the chat the main pane shows agree. */
  predicate Synced(st: Conversation) {
    st.current.Some? ==> st.current.value in st.chats
  }

  /** `chats.map(c => c.id === id ? updated : c)`. */
  function ReplaceChat(chats: seq<Chat>, id: string, updated: Chat): (r: seq<Chat>)
    ensures |r| == |chats|
    ensures forall i :: 0 <= i < |chats| ==> r[i] == if chats[i].id == id then updated else chats[i]
  {
    seq(|chats|, i requires 0 <= i < |chats| => if chats[i].id == id then updated else chats[i])
  }

  /** Replacing the entries that carry the current chat's id by its new
      version keeps the list and the current chat in agreement. */
  lemma ReplaceCurrentSynced(st: Conversation, updated: Chat)
    requires st.current.Some? && updated.id == st.current.value.id
    ensures Synced(st) ==> updated in ReplaceChat(st.chats, st.current.value.id, updated)
  {
    if Synced(st) {
      var chats := st.chats;
      var i :| 0 <= i < |chats| && chats[i] == st.current.value;
      assert ReplaceChat(chats, st.current.value.id, updated)[i] == updated;
    }
  }

  /** The state after mounting: one empty default chat, current. */
  function Initial(now: int): (st: Conversation)
    ensures Synced(st)
    ensures |st.chats| == 1 && st.current == Some(st.chats[0])
    ensures st.chats[0].messages == [] && st.sources == []
  {
    var c := Chat("default-chat", DefaultChatTitle, DefaultUserId, [], now, now);
    Conversation([c], Some(c), [])
  }

  /** `createNewChat`: refused while the current chat is still empty;
      otherwise a fresh empty chat goes to the front and becomes current,
      and the sources panel is cleared. */
  function CreateNewChat(st: Conversation, chatId: string, now: int): (r: Conversation)
    ensures st.current.Some? && |st.current.value.messages| == 0 ==> r == st
    ensures !(st.current.Some? && |st.current.value.messages| == 0) ==>
      && r.current.Some?
      && r.chats == [r.current.value] + st.chats
      && r.current.value.id == chatId
      && r.current.value.messages == []
      && r.current.value.title == DefaultNewChatTitle
      && r.sources == []
    ensures Synced(st) ==> Synced(r)
  {
    if st.current.Some? && |st.current.value.messages| == 0 then st
    else
      var blank := Chat(chatId, DefaultNewChatTitle, DefaultUserId, [], now, now);
      Conversation([blank] + st.chats, Some(blank), [])
  }

  /** `messages.filter(m => m.role === 'assistant')`. */
  function AssistantMessages(ms: seq<Message>): (r: seq<Message>)
    ensures |r| == 0 <==> forall i :: 0 <= i < |ms| ==> ms[i].role != Assistant
    ensures |r| > 0 ==> exists i :: (0 <= i < |ms| && ms[i] == r[|r| - 1] && ms[i].role == Assistant
      && forall j :: i < j < |ms| ==> ms[j].role != Assistant)
    decreases |ms|
  {
    if |ms| == 0 then []
    else
      var init := AssistantMessages(ms[..|ms| - 1]);
      assert forall i :: 0 <= i < |ms| - 1 ==> ms[..|ms| - 1][i] == ms[i];
      if ms[|ms| - 1].role == Assistant then init + [ms[|ms| - 1]] else init
  }

  /** The sources a chat reopens with: those of its last assistant message
      (`.pop()` of the filtered list), or none. */
  function ReopenedSources(ms: seq<Message>): (r: seq<Source>)
    ensures (forall i :: 0 <= i < |ms| ==> ms[i].role != Assistant) ==> r == []
    ensures forall i :: (0 <= i < |ms| && ms[i].role == Assistant
      && (forall j :: i < j < |ms| ==> ms[j].role != Assistant)) ==> r == ms[i].sources.GetOr([])
  {
    var assistants := AssistantMessages(ms);
    if |assistants| == 0 then [] else assistants[|assistants| - 1].sources.GetOr([])
  }

  /** `selectChat`: the chosen chat becomes current and the sources panel
      shows its last assistant message's sources. */
  function SelectChat(st: Conversation, chat: Chat): (r: Conversation)
    ensures r.chats == st.chats && r.current == Some(chat)
    ensures r.sources == ReopenedSources(chat.messages)
    ensures chat in st.chats ==> Synced(r)
  {
    Conversation(st.chats, Some(chat), ReopenedSources(chat.messages))
  }

  /** `chats.filter(c => c.id !== id)`. */
  function WithoutChat(chats: seq<Chat>, id: string): (r: seq<Chat>)
    ensures forall i :: 0 <= i < |r| ==> r[i].id != id
    ensures |r| <= |chats|
    decreases |chats|
  {
    if |chats| == 0 then []
    else (if chats[0].id != id then [chats[0]] else []) + WithoutChat(chats[1..], id)
  }

  /** Filtering distributes over concatenation: the kept chats of two runs
      of the list, in the order of the list. */
  lemma {:induction false} WithoutChatAppend(a: seq<Chat>, b: seq<Chat>, id: string)
    ensures WithoutChat(a + b, id) == WithoutChat(a, id) + WithoutChat(b, id)
    decreases |a|
  {
    if |a| == 0 {
      assert a + b == b;
    } else {
      WithoutChatAppend(a[1..], b, id);
      var ab := a + b;
      assert ab[0] == a[0] && ab[1..] == a[1..] + b;
      var head: seq<Chat> := if a[0].id != id then [a[0]] else [];
      calc {
        WithoutChat(ab, id);
        head + WithoutChat(ab[1..], id);
        head + (WithoutChat(a[1..], id) + WithoutChat(b, id));
        (head + WithoutChat(a[1..], id)) + WithoutChat(b, id);
        WithoutChat(a, id) + WithoutChat(b, id);
      }
    }
  }

  /** Every chat with another id stays as often as it occurred; chats with
      the id are gone. */
  lemma {:induction false} WithoutChatCounts(chats: seq<Chat>, id: string, c: Chat)
    ensures multiset(WithoutChat(chats, id))[c] == if c.id == id then 0 else multiset(chats)[c]
    decreases |chats|
  {
    if |chats| > 0 {
      WithoutChatCounts(chats[1..], id, c);
      assert chats == [chats[0]] + chats[1..];
    }
  }

  /** A chat remains exactly when it was in the list under another id. */
  lemma WithoutChatMembers(chats: seq<Chat>, id: string, c: Chat)
    ensures c in WithoutChat(chats, id) <==> c in chats && c.id != id
  {
    WithoutChatCounts(chats, id, c);
  }

  /** The first chat left is the first chat of the list with another id;
      nothing is left exactly when every chat has the id. */
  lemma {:induction false} WithoutChatFirst(chats: seq<Chat>, id: string, k: nat)
    requires k < |chats| && chats[k].id != id
    requires forall j :: 0 <= j < k ==> chats[j].id == id
    ensures WithoutChat(chats, id) != [] && WithoutChat(chats, id)[0] == chats[k]
    decreases k
  {
    if k > 0 {
      WithoutChatFirst(chats[1..], id, k - 1);
    }
  }

  /** `deleteChat`: every chat with that id leaves the list; if it was the
      current chat, the first remaining chat (or none) becomes current and
      the sources panel is cleared, otherwise the rest is untouched. */
  function DeleteChat(st: Conversation, chatId: string): (r: Conversation)
    ensures r.chats == WithoutChat(st.chats, chatId)
    ensures st.current.Some? && st.current.value.id == chatId ==>
      && r.sources == []
      && r.current == (if |r.chats| > 0 then Some(r.chats[0]) else None)
    ensures !(st.current.Some? && st.current.value.id == chatId) ==>
      r.current == st.current && r.sources == st.sources
    ensures Synced(st) ==> Synced(r)
  {
    var remaining := WithoutChat(st.chats, chatId);
    if st.current.Some? && st.current.value.id == chatId then
      Conversation(remaining, if |remaining| > 0 then Some(remaining[0]) else None, [])
    else
      match st.current
      case None => Conversation(remaining, None, st.sources)
      case Some(cur) =>
        WithoutChatMembers(st.chats, chatId, cur);
        Conversation(remaining, st.current, st.sources)
  }

  /** Deleting a chat twice is deleting it once. */
  lemma DeleteChatIdempotent(st: Conversation, chatId: string)
    ensures DeleteChat(DeleteChat(st, chatId), chatId) == DeleteChat(st, chatId)
  {
    WithoutChatIdempotent(st.chats, chatId);
  }

  lemma {:induction false} WithoutAbsentChat(chats: seq<Chat>, id: string)
    requires forall c :: c in chats ==> c.id != id
    ensures WithoutChat(chats, id) == chats
    decreases |chats|
  {
    if |chats| > 0 {
      WithoutAbsentChat(chats[1..], id);
      assert [chats[0]] + chats[1..] == chats;
    }
  }

  lemma WithoutChatIdempotent(chats: seq<Chat>, id: string)
    ensures WithoutChat(WithoutChat(chats, id), id) == WithoutChat(chats, id)
  {
    WithoutAbsentChat(WithoutChat(chats, id), id);
  }

  /** Deleting a chat just created under a new id undoes the creation: the
      list is as before, the first older chat is current and no sources show. */
  lemma DeleteUndoesCreate(st: Conversation, chatId: string, now: int)
    requires !(st.current.Some? && |st.current.value.messages| == 0)
    requires forall c :: c in st.chats ==> c.id != chatId
    ensures var r := DeleteChat(CreateNewChat(st, chatId, now), chatId);
            && r.chats == st.chats
            && r.current == (if |st.chats| > 0 then Some(st.chats[0]) else None)
            && r.sources == []
  {
    var created := CreateNewChat(st, chatId, now);
    WithoutAbsentChat(st.chats, chatId);
    assert created.chats[1..] == st.chats;
  }

  /** `sendMessage` up to the start of the stream: without a current chat
      nothing happens; otherwise the user's message is appended to the
      current chat, the chat's list entries are replaced by the new version
      and the sources panel is cleared. */
  function SendMessage(st: Conversation, content: string, messageId: string, now: int): (r: Conversation)
    ensures st.current.None? ==> r == st
    ensures st.current.Some? ==>
      && r.current == Some(st.current.value.(
           messages := st.current.value.messages + [Message(messageId, content, User, now, None)],
           updatedAt := now))
      && r.chats == ReplaceChat(st.chats, st.current.value.id, r.current.value)
      && r.sources == []
    ensures Synced(st) ==> Synced(r)
  {
    match st.current
    case None => st
    case Some(cur) =>
      var userMessage := Message(messageId, content, User, now, None);
      var updated := cur.(messages := cur.messages + [userMessage], updatedAt := now);
      ReplaceCurrentSynced(st, updated);
      Conversation(ReplaceChat(st.chats, cur.id, updated), Some(updated), [])
  }

  /** Only the chat being written to changes: entries with another id are
      kept in place, and the list keeps its length. */
  lemma SendMessageTouchesOnlyCurrent(st: Conversation, content: string, messageId: string, now: int, i: int)
    requires st.current.Some? && 0 <= i < |st.chats| && st.chats[i].id != st.current.value.id
    ensures |SendMessage(st, content, messageId, now).chats| == |st.chats|
    ensures SendMessage(st, content, messageId, now).chats[i] == st.chats[i]
  {
  }

  /** A user action on the conversation. */
  datatype Action =
    | NewChat(chatId: string, now: int)
    | Select(chat: Chat)
    | Delete(chatId: string)
    | Send(content: string, messageId: string, now: int)

  function Apply(st: Conversation, a: Action): Conversation {
    match a
    case NewChat(id, now) => CreateNewChat(st, id, now)
    case Select(chat) => SelectChat(st, chat)
    case Delete(id) => DeleteChat(st, id)
    case Send(content, id, now) => SendMessage(st, content, id, now)
  }

  /** Any sequence of user actions, selecting only chats from the list,
      keeps the current chat inside the chat list. */
  lemma {:induction false} ActionsKeepSynced(st: Conversation, actions: seq<Action>)
    requires Synced(st)
    requires forall k :: 0 <= k < |actions| && actions[k].Select? ==> actions[k].chat in Run(st, actions[..k]).chats
    ensures Synced(Run(st, actions))
    decreases |actions|
  {
    if |actions| > 0 {
      var init := actions[..|actions| - 1];
      forall k | 0 <= k < |init| && init[k].Select?
        ensures init[k].chat in Run(st, init[..k]).chats
      {
        assert init[..k] == actions[..k];
      }
      ActionsKeepSynced(st, init);
      assert actions[..|actions| - 1] == init;
    }
  }

  /** The state after a sequence of user actions. */
  function Run(st: Conversation, actions: seq<Action>): Conversation
    decreases |actions|
  {
    if |actions| == 0 then st
    else Apply(Run(st, actions[..|actions| - 1]), actions[|actions| - 1])
  }
}
