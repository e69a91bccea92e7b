# Chatbot conversation controller

A model of the conversation state machine of the Kisan Sahayak chatbot
widget: the `useChatbot` React hook, which keeps a language, a transcript of
user and bot messages, an input buffer and two flags (listening for speech,
bot typing), and changes them when the user switches language, sends a
message, or speaks into the microphone.

- `js_string.dfy` (module `JsString`): JavaScript's `String.prototype.trim`
  over ECMAScript's whitespace and line-terminator code points, and the
  "blank" test `!text.trim()` that the send handler applies.
- `responses.dfy` (module `Responses`): the greeting and reply tables, which
  the hook imports from elsewhere, as a parameter; the reply pick
  `Math.floor(Math.random() * n)`, with the random draw `r` in [0, 1) given
  as an argument.
- `conversation.dfy` (module `Conversation`): the hook's state as a value,
  each handler as a transition function, events and runs of events, and the
  lemmas about them.
- `use_chatbot.dfy` (module `UseChatbot`): class `Chatbot` with the five state
  variables as fields; each handler is a method that updates the fields as
  the hook's setters do and is proved equal to its transition in
  `Conversation`.

A send is split at its single `await`. `BeginSend` appends the user message
and returns the language the closure saw. `CompleteSend` receives that
language and the random draw, and appends the bot reply. Closures keep the
values of the render that created them. `sendMessage` therefore draws its
reply from the language current when the send began, and appends it to the
transcript as it is when the delay ends. A language change during the delay
leaves the new greeting followed by a reply in the old language
(`LateReplyAfterLanguageChange`, `ReplyAfterLanguageChange`). For the same
reason, the speech result handler runs the `sendMessage` of the render in
which listening started. `StartListening` returns that render's `lang` and
`input` as a `Snapshot`, and `OnResult` uses them: an empty transcript falls
back to the input buffer as it was when listening started.

Setter calls are applied in the order the handler makes them. This is the
order in which React applies a batch of updates, so in `onresult` the
`setInput("")` of a successful send wins over the earlier
`setInput(transcript)`.

Two behaviours a reader might expect that the code does not have:

- The code does not check the language passed to `changeLang`; its type
  admits only supported codes. The model requires a supported code rather
  than ignoring other codes.
- Nothing stops a second send during the thinking delay. The first reply to
  arrive clears `isTyping` while the second send is still pending, so "typing
  only between a user message and its reply" is not an invariant of the code.
  `TypingClearedWhileReplyPending` shows this: after two sends and one reply,
  typing is off while the second reply is still to come. Interleavings are
  expressible as event sequences (`Run`). The invariant proved for all of
  them is that the transcript is never empty and opens with a bot greeting.

## Model

| member | source | states |
|---|---|---|
| JsString.TrimStart | use-chatbot.ts:45 | the result is a suffix of the input, everything dropped is whitespace, and it does not start with whitespace |
| JsString.TrimEnd | use-chatbot.ts:45 | the result is a prefix of the input, everything dropped is whitespace, and it does not end with whitespace |
| JsString.Trim | use-chatbot.ts:45 | `trim()` is empty exactly when the text is whitespace only; its result neither starts nor ends with whitespace; text that already does neither is unchanged |
| JsString.TrimIsInfix | use-chatbot.ts:45 | what `trim()` keeps is the infix of the text between a whitespace-only prefix and a whitespace-only suffix |
| JsString.Blank | use-chatbot.ts:45 | `!s.trim()`: true exactly when `s` is empty or whitespace only |
| Responses.ReplyIndex | use-chatbot.ts:40 | `floor(r * n)` with `0 <= r < 1` and `n > 0` is an index into the pool |
| Responses.ReplyIndexReachesAll | use-chatbot.ts:40 | every index `k < n` is the pick of the draw `k / n`, which lies in [0, 1) |
| Responses.LocalResponse | use-chatbot.ts:38-41 | `getLocalResponse(c)` returns a member of `c`'s reply pool |
| Responses.EveryReplyCanBePicked | use-chatbot.ts:38-41 | every reply of the pool is returned for some draw in [0, 1) |
| Conversation.Initial | use-chatbot.ts:11-17 | initial state: language "hi-IN", transcript `[bot greeting of "hi-IN"]`, empty input, both flags false; the invariant holds |
| Conversation.AfterChangeLang | use-chatbot.ts:24-27 | the language becomes `c` and the transcript is exactly one bot message with `c`'s greeting; input and flags are kept |
| Conversation.ChangeLangIdempotent | use-chatbot.ts:24-27 | changing to the same language twice gives the same state as once |
| Conversation.EffectiveText | use-chatbot.ts:44 | an explicit text is used unless it is absent or empty; an empty explicit text falls back to the input buffer |
| Conversation.AfterSendBegin | use-chatbot.ts:45-49 | blank text leaves the state unchanged; otherwise exactly one user message with the untrimmed text is appended, earlier messages are kept, input becomes "" and typing becomes true |
| Conversation.AfterReply | use-chatbot.ts:54-56 | typing becomes false and exactly one bot message is appended, earlier messages are kept, and its text is in the reply pool of the language captured when the send began |
| Conversation.AfterStartListening | use-chatbot.ts:60-68 | without recognition support nothing changes; with it only the listening flag is set |
| Conversation.AfterResult | use-chatbot.ts:71-76 | listening ends; the text sent is the transcript, or the input the session's closure saw when the transcript is empty; if that text is not blank the result equals a direct send of it, otherwise only the input buffer takes the transcript |
| Conversation.AfterErrorOrEnd | use-chatbot.ts:77-78 | only the listening flag is cleared |
| Conversation.Step | use-chatbot.ts:24-78 | every handler, with admissible arguments, preserves the invariant: supported language, non-empty transcript opening with a bot greeting |
| Conversation.Run | use-chatbot.ts:24-78 | any sequence of handler events, overlapping sends and language changes included, preserves the invariant |
| Conversation.MessagesNeverEmpty | use-chatbot.ts:12-56 | from the initial state, after any events, the transcript is non-empty and its first entry is a bot message |
| Conversation.FullSend | use-chatbot.ts:43-56 | an uninterrupted send of non-blank text appends exactly the user message and then one reply from the current language's pool, clears the input and ends typing |
| Conversation.TypingClearedWhileReplyPending | use-chatbot.ts:47-56 | with two sends under way, the first reply clears `isTyping` while the second reply is still pending; the transcript holds both user messages and then one bot reply |
| Conversation.LateReplyAfterLanguageChange | use-chatbot.ts:24-58 | a language change during the delay leaves the new greeting followed by a reply from the old language's pool |
| Conversation.FirstExchange | use-chatbot.ts:11-56 | starting fresh, sending a non-blank text and receiving the reply yields exactly the "hi-IN" greeting, the user's text, and the reply drawn from the "hi-IN" pool |
| Conversation.HelloIsNotBlank | use-chatbot.ts:45 | "hello" passes the blank test, so the first exchange above applies to it |
| Conversation.VoiceResultIsSend | use-chatbot.ts:60-76 | a capture that hears a non-blank transcript equals a direct send of it, apart from the listening flag |
| UseChatbot.Chatbot.constructor | use-chatbot.ts:11-17 | the fields start in the initial state |
| UseChatbot.Chatbot.ChangeLang | use-chatbot.ts:24-27 | the fields change as `AfterChangeLang` says |
| UseChatbot.Chatbot.BeginSend | use-chatbot.ts:43-49 | the fields change as a send from the current render says; returns None on blank text, otherwise the current language |
| UseChatbot.Chatbot.BeginSendFrom | use-chatbot.ts:43-49 | the fields change as `AfterSendBegin` says for the text the closure settles on; returns None on blank text, otherwise the closure's language |
| UseChatbot.Chatbot.CompleteSend | use-chatbot.ts:52-57 | the fields change as `AfterReply` says; the returned reply is in the captured language's pool and is the entry appended |
| UseChatbot.Chatbot.StartListening | use-chatbot.ts:60-69 | the fields change as `AfterStartListening` says; when supported, the session's handlers see the current language and input |
| UseChatbot.Chatbot.OnResult | use-chatbot.ts:71-76 | the fields change as `AfterResult` says; returns the send's pending language, or None if nothing was sent |
| UseChatbot.Chatbot.OnErrorOrEnd | use-chatbot.ts:77-78 | the fields change as `AfterErrorOrEnd` says |
| UseChatbot.ReplyAfterLanguageChange | use-chatbot.ts:24-58 | on the object: send "hello", change to `c`, let the reply arrive; the transcript is `c`'s greeting and then a reply from the "hi-IN" pool |

## Left out

- `speakText` (use-chatbot.ts:29-36) hands the reply to the browser's speech synthesis without waiting. It changes no conversation state, so `CompleteSend` only returns the reply it would speak.
- The scroll-into-view effect, the `bottomRef` ref and React's hook plumbing (use-chatbot.ts:18-22) are presentation only.
- The `placeholder` and `languages` projections (use-chatbot.ts:84) are plain lookups in tables that are not part of this model.
- The contents of the greeting, placeholder, language and reply tables live in other files. The tables are a parameter. The only requirement is that the default language has a greeting and a non-empty reply pool, and that every language used has them too.
- The thinking delay `setTimeout` (use-chatbot.ts:52) is not modelled as time. It is the split between `BeginSend` and `CompleteSend`.
- `Math.random()` is the argument `r`, a real number in [0, 1). Floating-point rounding of `r * n` is not modelled.
- The `SpeechRecognition` object, its `lang` setting, `start()` and the `alert` are browser APIs. Only the "supported" flag and the three incoming events are modelled. `onresult` reads only the first alternative of the first result, so its transcript is a plain string argument.
- Overlapping sends and overlapping capture sessions are allowed, as in the code. No guard is modelled, and no ordering property is proved for them beyond the transcript invariant of `Run`.
