/** The input and loading-indicator rules of `ChatArea`: the submit guard
    of the message box, the Enter key, the cycling loading text and the
    typing flags. Timers are collapsed: a `Tick` is one interval firing. */
module ChatArea {
  import opened JsValues
  import opened JsStrings
  import opened ChatTypes
  import opened AppConfig

  /** What the box holds after an attempt to submit, and what was sent. */
  datatype Submission = Submission(sent: Option<string>, input: string)

  /** `handleSubmit`: the trimmed text is sent and the box emptied, unless
      it is blank or an answer is still loading. */
  function HandleSubmit(input: string, isLoading: bool): (r: Submission)
    ensures r.sent.None? ==> r.input == input
    ensures r.sent.Some? ==> r.input == "" && r.sent.value == Trim(input) && r.sent.value != ""
    ensures r.sent.Some? <==> Trim(input) != "" && !isLoading
  {
    if Trim(input) != "" && !isLoading then Submission(Some(Trim(input)), "") else Submission(None, input)
  }

  /** A message is sent exactly when nothing is loading and the box holds
      some non-whitespace character; what is sent is already trimmed. */
  lemma SubmitGuard(input: string, isLoading: bool)
    ensures HandleSubmit(input, isLoading).sent.Some? <==>
      !isLoading && exists i :: 0 <= i < |input| && !IsWhitespace(input[i])
    ensures HandleSubmit(input, isLoading).sent.Some? ==>
      Trim(HandleSubmit(input, isLoading).sent.value) == HandleSubmit(input, isLoading).sent.value
  {
    TrimEmptyIff(input);
    TrimIdempotent(input);
  }

  /** `handleKeyDown`: Enter without Shift submits; every other key,
      Shift+Enter included, leaves the box to the browser. */
  function HandleKeyDown(key: string, shiftKey: bool, input: string, isLoading: bool): (r: Submission)
    ensures key == "Enter" && !shiftKey ==> r == HandleSubmit(input, isLoading)
    ensures !(key == "Enter" && !shiftKey) ==> r == Submission(None, input)
  {
    if key == "Enter" && !shiftKey then HandleSubmit(input, isLoading) else Submission(None, input)
  }

  /** The keyboard and the submit button send the same messages: a key
      press sends exactly what the button would, and only Enter without
      Shift sends at all. Pressing Enter again straight after a message went
      out sends nothing, because the box is now empty. */
  lemma KeyDownSendsOnce(key: string, shiftKey: bool, input: string, isLoading: bool)
    ensures var r := HandleKeyDown(key, shiftKey, input, isLoading);
            && (r.sent.Some? <==> key == "Enter" && !shiftKey && HandleSubmit(input, isLoading).sent.Some?)
            && (r.sent.Some? ==> r.sent == HandleSubmit(input, isLoading).sent)
            && (r.sent.Some? ==> HandleKeyDown(key, shiftKey, r.input, isLoading).sent.None?)
  {
    var r := HandleKeyDown(key, shiftKey, input, isLoading);
    if r.sent.Some? {
      assert r.input == "";
      assert |Trim("")| == 0;
      assert HandleSubmit("", isLoading).sent.None?;
    }
  }

  /** A `setTimeout` of the typing effect still to fire: the one that shows
      the typing animation, or the one that marks the answer as being typed. */
  datatype Timer = ShowAnimation | StartTyping

  /** The indicator's state, with the typing effect's timers not yet fired
      in the order they were scheduled. The timers are never cancelled. */
  datatype Indicator = Indicator(loadingText: string, index: nat, isTyping: bool, showTypingAnimation: bool, pending: seq<Timer>)

  const InitialIndicator := Indicator("Analyzing the codebase", 0, false, false, [])

  /** The loading effect when `isLoading` changes: stopping clears both
      typing flags; starting restarts the cycle at index 0 without changing
      the text shown. Pending timers are left to fire. */
  function LoadingChanged(ind: Indicator, isLoading: bool): (r: Indicator)
    ensures !isLoading ==> !r.isTyping && !r.showTypingAnimation
    ensures !isLoading ==> r == ind.(isTyping := false, showTypingAnimation := false)
    ensures r.loadingText == ind.loadingText && r.pending == ind.pending
    ensures isLoading ==> r == ind.(index := 0)
  {
    if !isLoading then ind.(isTyping := false, showTypingAnimation := false)
    else ind.(index := 0)
  }

  /** One interval firing: the next loading message, wrapping round. */
  function Tick(ind: Indicator): (r: Indicator)
    ensures r.index < |LoadingMessages|
    ensures r.index == (ind.index + 1) % |LoadingMessages|
    ensures r.loadingText == LoadingMessages[r.index]
    ensures r.isTyping == ind.isTyping && r.showTypingAnimation == ind.showTypingAnimation
    ensures r.pending == ind.pending
  {
    var next := (ind.index + 1) % |LoadingMessages|;
    ind.(index := next, loadingText := LoadingMessages[next])
  }

  function Ticks(ind: Indicator, n: nat): Indicator
    decreases n
  {
    if n == 0 then ind else Tick(Ticks(ind, n - 1))
  }

  /** After `n` intervals from the start of loading the indicator shows
      message `n mod 8`: the cycle is periodic and never leaves the list. */
  lemma {:induction false} TicksCycle(ind: Indicator, n: nat)
    ensures Ticks(LoadingChanged(ind, true), n).index == n % |LoadingMessages|
    ensures n > 0 ==> Ticks(LoadingChanged(ind, true), n).loadingText == LoadingMessages[n % |LoadingMessages|]
    decreases n
  {
    if n > 0 {
      TicksCycle(ind, n - 1);
    }
  }

  /** The last message is an assistant message with content, while an answer
      is loading. */
  predicate Responding(messages: seq<Message>, isLoading: bool) {
    isLoading && |messages| > 0 && messages[|messages| - 1].role == Assistant && messages[|messages| - 1].content != ""
  }

  /** The typing effect, run when the messages or the loading flag change:
      while an answer with content is loading it schedules both timers;
      otherwise it does nothing. It sets no flag itself. */
  function TypingEffect(ind: Indicator, messages: seq<Message>, isLoading: bool): (r: Indicator)
    ensures Responding(messages, isLoading) ==> r == ind.(pending := ind.pending + [ShowAnimation, StartTyping])
    ensures !Responding(messages, isLoading) ==> r == ind
  {
    if Responding(messages, isLoading) then ind.(pending := ind.pending + [ShowAnimation, StartTyping])
    else ind
  }

  /** The oldest pending timer fires: one shows the animation, the other
      marks the answer as typed and says "AI is responding". */
  function FireNext(ind: Indicator): (r: Indicator)
    ensures |ind.pending| == 0 ==> r == ind
    ensures |ind.pending| > 0 ==> r.pending == ind.pending[1..] && r.index == ind.index
    ensures |ind.pending| > 0 && ind.pending[0] == ShowAnimation ==>
      r.showTypingAnimation && r.isTyping == ind.isTyping && r.loadingText == ind.loadingText
    ensures |ind.pending| > 0 && ind.pending[0] == StartTyping ==>
      r.isTyping && r.loadingText == "AI is responding" && r.showTypingAnimation == ind.showTypingAnimation
  {
    if |ind.pending| == 0 then ind
    else match ind.pending[0]
      case ShowAnimation => ind.(showTypingAnimation := true, pending := ind.pending[1..])
      case StartTyping => ind.(isTyping := true, loadingText := "AI is responding", pending := ind.pending[1..])
  }

  /** Every pending timer fires, oldest first. */
  function FireAll(ind: Indicator): (r: Indicator)
    ensures r.pending == []
    decreases |ind.pending|
  {
    if |ind.pending| == 0 then ind else FireAll(FireNext(ind))
  }

  /** Once every pending timer has fired, the typing animation shows
      exactly when it showed already or an animation timer was pending, and
      the answer is marked as typed exactly when it was already or a typing
      timer was pending; in that case the text reads "AI is responding". */
  lemma {:induction false} FireAllSets(ind: Indicator)
    ensures FireAll(ind).showTypingAnimation <==> ind.showTypingAnimation || ShowAnimation in ind.pending
    ensures FireAll(ind).isTyping <==> ind.isTyping || StartTyping in ind.pending
    ensures StartTyping in ind.pending ==> FireAll(ind).loadingText == "AI is responding"
    ensures StartTyping !in ind.pending ==> FireAll(ind).loadingText == ind.loadingText
    decreases |ind.pending|
  {
    if |ind.pending| > 0 {
      var next := FireNext(ind);
      FireAllSets(next);
      assert ind.pending == [ind.pending[0]] + next.pending;
    }
  }

  /** While an answer with content is loading, the typing effect followed by
      its timers shows the animation and "AI is responding". */
  lemma TypingObserved(ind: Indicator, messages: seq<Message>)
    requires Responding(messages, true)
    ensures var r := FireAll(TypingEffect(ind, messages, true));
            r.isTyping && r.showTypingAnimation && r.loadingText == "AI is responding"
  {
    var e := TypingEffect(ind, messages, true);
    assert e.pending[|e.pending| - 1] == StartTyping && e.pending[|e.pending| - 2] == ShowAnimation;
    FireAllSets(e);
  }

  /** Stopping the loading clears both flags, but the timers are not
      cancelled: once those pending at the stop have fired, the indicator is
      typing again exactly when a typing timer was still pending, and shows
      the animation exactly when an animation timer was. */
  lemma StopClearsTyping(ind: Indicator)
    ensures var stopped := LoadingChanged(ind, false);
            && !stopped.isTyping && !stopped.showTypingAnimation
            && (FireAll(stopped).isTyping <==> StartTyping in ind.pending)
            && (FireAll(stopped).showTypingAnimation <==> ShowAnimation in ind.pending)
  {
    FireAllSets(LoadingChanged(ind, false));
  }
}
