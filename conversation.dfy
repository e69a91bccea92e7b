/** The conversation state of the `useChatbot` hook as a value, and each of
    its transitions as a function of the state before it. The class in
    module UseChatbot performs these transitions in place; the lemmas here
    state what any sequence of them guarantees. */
module Conversation {
  import opened JsString
  import opened Responses

  datatype Option<T> = None | Some(value: T)

  datatype Sender = User | Bot

  /** One entry of the transcript. */
  datatype Message = Message(sender: Sender, text: string)

  /** The hook's five state variables. */
  datatype ChatState = ChatState(
    lang: LangCode,
    messages: seq<Message>,
    input: string,
    isListening: bool,
    isTyping: bool)

  /** The `lang` and `input` a handler closed over: those of the render that
      created it. `sendMessage` and the speech handlers read these, not the
      state current when they run. */
  datatype Snapshot = Snapshot(lang: LangCode, input: string)

  /** The greeting entry for language `c`. */
  function Greeting(t: Tables, c: LangCode): Message
    requires c in t.greeting
  {
    Message(Bot, t.greeting[c])
  }

  /** What holds in every reachable state: the language is served by the
      tables, and the transcript is never empty and opens with a greeting. */
  predicate Inv(t: Tables, s: ChatState) {
    WellFormed(t) && Supported(t, s.lang) && |s.messages| > 0
    && s.messages[0].sender == Bot && s.messages[0].text in t.greeting.Values
  }

  /** The state the hook starts in. */
  function Initial(t: Tables): (s: ChatState)
    requires WellFormed(t)
    ensures Inv(t, s)
    ensures s.lang == DefaultLang && s.messages == [Greeting(t, DefaultLang)]
    ensures s.input == "" && !s.isListening && !s.isTyping
  {
    ChatState(DefaultLang, [Greeting(t, DefaultLang)], "", false, false)
  }

  /** `changeLang(c)`: the transcript is replaced, not extended, by the
      greeting of `c`; the input buffer and both flags are kept. */
  function AfterChangeLang(t: Tables, s: ChatState, c: LangCode): (r: ChatState)
    requires Supported(t, c)
    ensures WellFormed(t) ==> Inv(t, r)
    ensures r.lang == c && r.messages == [Greeting(t, c)]
    ensures r.input == s.input && r.isListening == s.isListening && r.isTyping == s.isTyping
  {
    s.(lang := c, messages := [Greeting(t, c)])
  }

  /** `customInput || input`: the explicit text unless it is absent or the
      empty (falsy) string, in which case the input buffer. */
  function EffectiveText(customInput: Option<string>, input: string): (text: string)
    ensures customInput == None || customInput == Some("") ==> text == input
    ensures customInput.Some? && customInput.value != "" ==> text == customInput.value
  {
    match customInput
    case Some(s) => if s != "" then s else input
    case None => input
  }

  /** The part of `sendMessage` before its `await`, for the text it settled
      on: blank text changes nothing; otherwise exactly one user entry with
      the untrimmed text is appended, the input buffer is cleared and the
      bot is marked as typing. */
  function AfterSendBegin(s: ChatState, text: string): (r: ChatState)
    ensures Blank(text) ==> r == s
    ensures !Blank(text) ==>
      |r.messages| == |s.messages| + 1 && r.messages[..|s.messages|] == s.messages
      && r.messages[|s.messages|] == Message(User, text)
      && r.input == "" && r.isTyping
      && r.lang == s.lang && r.isListening == s.isListening
  {
    if Blank(text) then s
    else s.(messages := s.messages + [Message(User, text)], input := "", isTyping := true)
  }

  /** The part of `sendMessage` after its `await`: the bot stops typing and
      one bot entry, drawn by `r` from the pool of the language `captured`
      when the send began, is appended to the transcript as it is now. */
  function AfterReply(t: Tables, s: ChatState, captured: LangCode, r: real): (s': ChatState)
    requires Supported(t, captured) && 0.0 <= r < 1.0
    ensures |s'.messages| == |s.messages| + 1 && s'.messages[..|s.messages|] == s.messages
    ensures s'.messages[|s.messages|].sender == Bot
    ensures s'.messages[|s.messages|].text in t.replies[captured]
    ensures !s'.isTyping
    ensures s'.lang == s.lang && s'.input == s.input && s'.isListening == s.isListening
  {
    s.(isTyping := false, messages := s.messages + [Message(Bot, LocalResponse(t, captured, r))])
  }

  /** `startListening` on a browser that does (`supported`) or does not offer
      speech recognition: without it nothing changes; with it only the
      listening flag is raised. */
  function AfterStartListening(s: ChatState, supported: bool): (r: ChatState)
    ensures !supported ==> r == s
    ensures supported ==> r.isListening && r.(isListening := s.isListening) == s
  {
    if supported then s.(isListening := true) else s
  }

  /** `recognition.onresult` with the transcript heard, in a session whose
      handlers closed over `session`: the input buffer is set to the
      transcript, `sendMessage(transcript)` runs up to its `await`, and the
      listening flag is lowered. */
  function AfterResult(s: ChatState, transcript: string, session: Snapshot): (r: ChatState)
    ensures !r.isListening && r.lang == s.lang
    ensures !Blank(transcript) ==> r == AfterSendBegin(s, transcript).(isListening := false)
    ensures Blank(EffectiveText(Some(transcript), session.input)) ==>
      r == s.(input := transcript, isListening := false)
    ensures !Blank(EffectiveText(Some(transcript), session.input)) ==>
      r == AfterSendBegin(s, EffectiveText(Some(transcript), session.input)).(isListening := false)
    ensures transcript == "" ==>
      (r == AfterSendBegin(s, session.input).(isListening := false)
       || (Blank(session.input) && r == s.(input := "", isListening := false)))
  {
    AfterSendBegin(s.(input := transcript), EffectiveText(Some(transcript), session.input))
      .(isListening := false)
  }

  /** `recognition.onerror` and `recognition.onend`: only the listening flag
      is lowered. */
  function AfterErrorOrEnd(s: ChatState): (r: ChatState)
    ensures !r.isListening && r.(isListening := s.isListening) == s
  {
    s.(isListening := false)
  }

  /** What can happen to the hook, in any order: the user changes language,
      sends (with or without explicit text), a pending reply arrives, a
      capture starts, or a capture session delivers a result, an error or
      its end. */
  datatype Event =
    | LangChanged(c: LangCode)
    | Sent(customInput: Option<string>)
    | Replied(captured: LangCode, r: real)
    | ListenRequested(supported: bool)
    | Heard(transcript: string, session: Snapshot)
    | ListenStopped

  /** The events a caller can produce: languages come from the supported
      set and random draws from [0, 1). */
  predicate Admissible(t: Tables, e: Event) {
    match e
    case LangChanged(c) => Supported(t, c)
    case Replied(captured, r) => Supported(t, captured) && 0.0 <= r < 1.0
    case _ => true
  }

  /** One event applied to the state. A send started from the UI uses the
      `sendMessage` of the current render, so its closure sees the current
      state. */
  function Step(t: Tables, s: ChatState, e: Event): (r: ChatState)
    requires Inv(t, s) && Admissible(t, e)
    ensures Inv(t, r)
  {
    match e
    case LangChanged(c) => AfterChangeLang(t, s, c)
    case Sent(customInput) => AfterSendBegin(s, EffectiveText(customInput, s.input))
    case Replied(captured, r) => AfterReply(t, s, captured, r)
    case ListenRequested(supported) => AfterStartListening(s, supported)
    case Heard(transcript, session) => AfterResult(s, transcript, session)
    case ListenStopped => AfterErrorOrEnd(s)
  }

  /** A sequence of events applied in order. */
  function Run(t: Tables, s: ChatState, es: seq<Event>): (r: ChatState)
    requires Inv(t, s) && forall i :: 0 <= i < |es| ==> Admissible(t, es[i])
    ensures Inv(t, r)
    decreases |es|
  {
    if es == [] then s else Run(t, Step(t, s, es[0]), es[1..])
  }

  /** The transcript is never empty and opens with a greeting, whatever
      events arrive and in whatever order, interleaved sends included. */
  lemma MessagesNeverEmpty(t: Tables, es: seq<Event>)
    requires WellFormed(t) && forall i :: 0 <= i < |es| ==> Admissible(t, es[i])
    ensures |Run(t, Initial(t), es).messages| > 0
    ensures Run(t, Initial(t), es).messages[0].sender == Bot
  {
  }

  /** Changing to the same language twice is the same as once. */
  lemma ChangeLangIdempotent(t: Tables, s: ChatState, c: LangCode)
    requires Supported(t, c)
    ensures AfterChangeLang(t, AfterChangeLang(t, s, c), c) == AfterChangeLang(t, s, c)
  {
  }

  /** A send that is not interrupted grows the transcript by exactly two
      entries, the user's text and then a reply from the current language's
      pool, and leaves the bot not typing. */
  lemma FullSend(t: Tables, s: ChatState, text: string, r: real)
    requires Inv(t, s) && !Blank(text) && 0.0 <= r < 1.0
    ensures var s' := AfterReply(t, AfterSendBegin(s, text), s.lang, r);
      s'.messages == s.messages + [Message(User, text), Message(Bot, LocalResponse(t, s.lang, r))]
      && s'.lang == s.lang && s'.input == "" && !s'.isTyping
  {
  }

  /** A language change during the thinking delay: the transcript is reset to
      the new greeting, and the pending reply, drawn from the OLD language's
      pool, is appended after it. */
  lemma LateReplyAfterLanguageChange(t: Tables, s: ChatState, text: string, c: LangCode, r: real)
    requires Inv(t, s) && Supported(t, c) && !Blank(text) && 0.0 <= r < 1.0
    ensures var s' := AfterReply(t, AfterChangeLang(t, AfterSendBegin(s, text), c), s.lang, r);
      s'.lang == c
      && s'.messages == [Greeting(t, c), Message(Bot, LocalResponse(t, s.lang, r))]
  {
  }

  /** From the initial state, sending a non-blank text (for instance
      "hello") and letting the reply arrive yields the greeting, the user's
      text and one reply of the default language's pool. */
  lemma FirstExchange(t: Tables, text: string, r: real)
    requires WellFormed(t) && !Blank(text) && 0.0 <= r < 1.0
    ensures Run(t, Initial(t), [Sent(Some(text)), Replied(DefaultLang, r)]).messages
      == [Greeting(t, DefaultLang), Message(User, text), Message(Bot, LocalResponse(t, DefaultLang, r))]
  {
    var s0 := Initial(t);
    RunTwo(t, s0, Sent(Some(text)), Replied(DefaultLang, r));
    assert text != "" by {
      assert Blank("");
    }
    assert Step(t, s0, Sent(Some(text))) == AfterSendBegin(s0, text);
    FullSend(t, s0, text, r);
  }

  /** "hello" is not blank, so the exchange above applies to it. */
  lemma HelloIsNotBlank()
    ensures !Blank("hello")
  {
  }

  /** Running two events is applying one after the other. */
  lemma RunTwo(t: Tables, s: ChatState, e1: Event, e2: Event)
    requires Inv(t, s) && Admissible(t, e1) && Admissible(t, e2)
    ensures Run(t, s, [e1, e2]) == Step(t, Step(t, s, e1), e2)
  {
    var es := [e1, e2];
    var s1 := Step(t, s, e1);
    assert es[0] == e1 && es[1..] == [e2] && [e2][1..] == [];
    assert Run(t, s, es) == Run(t, s1, [e2]);
    assert Run(t, s1, [e2]) == Run(t, Step(t, s1, e2), []);
  }

  /** A capture that hears a non-blank transcript has the effect of sending
      that transcript directly, apart from the listening flag, whatever the
      session's closure saw. */
  lemma VoiceResultIsSend(s: ChatState, transcript: string, session: Snapshot)
    requires !Blank(transcript)
    ensures AfterResult(AfterStartListening(s, true), transcript, session)
      == AfterSendBegin(s, EffectiveText(Some(transcript), s.input)).(isListening := false)
  {
    assert transcript != "" by {
      assert Blank("");
    }
    assert EffectiveText(Some(transcript), session.input) == transcript;
    assert EffectiveText(Some(transcript), s.input) == transcript;
  }

  /** `isTyping` does not mark "a reply is pending": with two sends under
      way, the first reply to arrive clears it while the other reply is still
      to come. */
  lemma TypingClearedWhileReplyPending(t: Tables, s: ChatState, a: string, b: string, r: real)
    requires Inv(t, s) && !Blank(a) && !Blank(b) && 0.0 <= r < 1.0
    ensures var s1 := AfterSendBegin(AfterSendBegin(s, a), b);
      var s2 := AfterReply(t, s1, s.lang, r);
      s1.isTyping && !s2.isTyping
      && |s2.messages| == |s.messages| + 3
      && s2.messages[|s.messages|] == Message(User, a)
      && s2.messages[|s.messages| + 1] == Message(User, b)
      && s2.messages[|s.messages| + 2].sender == Bot
  {
    var s1 := AfterSendBegin(AfterSendBegin(s, a), b);
    var s2 := AfterReply(t, s1, s.lang, r);
    assert s2.messages[..|s1.messages|] == s1.messages;
  }
}
