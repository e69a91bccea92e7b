/** The `useChatbot` hook as an object: its five state variables are fields,
    and each handler updates them step by step as the hook's setters do.
    Every method is specified by the matching transition of module
    Conversation. A send is split at its `await` into BeginSend and
    CompleteSend; the language BeginSend captured is handed to CompleteSend. */
module UseChatbot {
  import opened JsString
  import opened Responses
  import opened Conversation

  class Chatbot {
    /** The greeting and reply tables the hook imports. */
    const tables: Tables

    var lang: LangCode
    var messages: seq<Message>
    var input: string
    var isListening: bool
    var isTyping: bool

    /** The five fields as one value. */
    function State(): ChatState
      reads this
    {
      ChatState(lang, messages, input, isListening, isTyping)
    }

    ghost predicate Valid()
      reads this
    {
      Inv(tables, State())
    }

    /** The hook's first render: the default language, its greeting as the
        only message, an empty input buffer and both flags down. */
    constructor (t: Tables)
      requires WellFormed(t)
      ensures Valid() && tables == t
      ensures State() == Initial(t)
    {
      tables := t;
      lang := DefaultLang;
      messages := [Message(Bot, t.greeting[DefaultLang])];
      input := "";
      isListening := false;
      isTyping := false;
    }

    /** `changeLang(newLang)`: switch language and reset the transcript to
        that language's greeting. */
    method ChangeLang(newLang: LangCode)
      requires Valid() && Supported(tables, newLang)
      modifies this
      ensures Valid()
      ensures State() == AfterChangeLang(tables, old(State()), newLang)
      ensures lang == newLang && messages == [Greeting(tables, newLang)]
    {
      lang := newLang;
      messages := [Message(Bot, tables.greeting[newLang])];
    }

    /** `sendMessage(customInput)` as called from the current render, up to
        its `await`. Returns the language the pending reply will be drawn
        from, or None when the text was blank and nothing happened. */
    method BeginSend(customInput: Option<string>) returns (pending: Option<LangCode>)
      requires Valid()
      modifies this
      ensures Valid()
      ensures State() == Step(tables, old(State()), Sent(customInput))
      ensures pending == if Blank(EffectiveText(customInput, old(input))) then None else Some(old(lang))
    {
      pending := BeginSendFrom(customInput, Snapshot(lang, input));
    }

    /** The body of `sendMessage` up to its `await`, run by a closure that saw
        `closure.input` and `closure.lang`. */
    method BeginSendFrom(customInput: Option<string>, closure: Snapshot) returns (pending: Option<LangCode>)
      requires Valid()
      modifies this
      ensures Valid()
      ensures State() == AfterSendBegin(old(State()), EffectiveText(customInput, closure.input))
      ensures pending == if Blank(EffectiveText(customInput, closure.input)) then None else Some(closure.lang)
    {
      var msgText := EffectiveText(customInput, closure.input);
      if Blank(msgText) {
        return None;
      }
      messages := messages + [Message(User, msgText)];
      input := "";
      isTyping := true;
      pending := Some(closure.lang);
    }

    /** The rest of `sendMessage`, after the thinking delay: `r` is the draw
        of `Math.random()` and `captured` the language the send began in.
        Returns the reply, which is also handed to speech output. */
    method CompleteSend(captured: LangCode, r: real) returns (botReply: string)
      requires Valid() && Supported(tables, captured) && 0.0 <= r < 1.0
      modifies this
      ensures Valid()
      ensures State() == AfterReply(tables, old(State()), captured, r)
      ensures botReply in tables.replies[captured]
      ensures messages == old(messages) + [Message(Bot, botReply)]
    {
      botReply := LocalResponse(tables, captured, r);
      isTyping := false;
      messages := messages + [Message(Bot, botReply)];
    }

    /** `startListening`, where `supported` says whether the browser offers
        speech recognition. Without it the user is alerted and nothing
        changes (None); with it listening starts, and the handlers of the
        session close over the current `lang` and `input` (returned). */
    method StartListening(supported: bool) returns (session: Option<Snapshot>)
      requires Valid()
      modifies this
      ensures Valid()
      ensures State() == AfterStartListening(old(State()), supported)
      ensures session == if supported then Some(Snapshot(old(lang), old(input))) else None
    {
      if !supported {
        return None;
      }
      session := Some(Snapshot(lang, input));
      isListening := true;
    }

    /** `recognition.onresult` of a session started with `session`: put the
        transcript in the input buffer, send it, and stop listening. Returns
        what the send returned. */
    method OnResult(transcript: string, session: Snapshot) returns (pending: Option<LangCode>)
      requires Valid()
      modifies this
      ensures Valid()
      ensures State() == AfterResult(old(State()), transcript, session)
      ensures pending == if Blank(EffectiveText(Some(transcript), session.input)) then None else Some(session.lang)
    {
      input := transcript;
      pending := BeginSendFrom(Some(transcript), session);
      isListening := false;
    }

    /** `recognition.onerror` and `recognition.onend`: stop listening. */
    method OnErrorOrEnd()
      requires Valid()
      modifies this
      ensures Valid()
      ensures State() == AfterErrorOrEnd(old(State()))
    {
      isListening := false;
    }
  }

  /** A user sends "hello" and switches to language `c` while the bot is
      thinking: the transcript is reset to `c`'s greeting, and then the reply
      drawn from the default language's pool is appended after it. */
  method ReplyAfterLanguageChange(t: Tables, c: LangCode, r: real) returns (transcript: seq<Message>)
    requires WellFormed(t) && Supported(t, c) && 0.0 <= r < 1.0
    ensures |transcript| == 2 && transcript[0] == Greeting(t, c)
    ensures transcript[1].sender == Bot && transcript[1].text in t.replies[DefaultLang]
  {
    var bot := new Chatbot(t);
    HelloIsNotBlank();
    var pending := bot.BeginSend(Some("hello"));
    bot.ChangeLang(c);
    var reply := bot.CompleteSend(pending.value, r);
    transcript := bot.messages;
  }
}
