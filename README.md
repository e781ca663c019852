# Finance chatbot: a verified model of its reply logic

The application teaches children about money and stocks through a chat
widget. Two pieces of it decide what the user reads:

- **The keyword reply lookup.** The server's `getFallbackResponse` and the
  client widget's `getBotResponse` each lowercase and trim the message. They
  walk an ordered table from keyword to reply and answer with the reply of
  the first keyword the message contains. When no keyword occurs they answer
  with a fixed default. The client table has its own `default` entry, which
  the scan passes over.
- **The server's resolution policy** (`handleAIChat`). It does four things:
  - It validates the request: a missing body gives 500, and a missing, empty
    or non-string message gives 400.
  - It asks the language-model provider only when an API key is configured
    and is not `fallback_mode`.
  - When it asks, it sends the last six history turns and then the message.
  - It takes the provider's text when the first content block is text.
    Otherwise, or when the call throws, it falls back to the keyword table
    with status 200.
  - An empty text block from the provider is returned as an empty 200 reply
    (server/routes/ai-chat.ts:112-117). The code does not treat it as a
    provider failure, and `HandleAIChat` states this.
- **The client's conversation state.** The widget holds the transcript, the
  input field and the typing indicator. Sending a non-blank input appends
  it as a user message, clears the field and shows the indicator. The
  scheduled callback then appends the bot's reply to that input and hides
  the indicator.

Modules, one file each:

- `wrappers.dfy`, module `Wrappers`: `Option`.
- `strings.dfy`, module `Strings`: the JavaScript string operations used.
  - `includes` is substring containment, with an executable scan.
  - `toLowerCase` is restricted to ASCII; the Arabic keys have no case.
  - `trim` removes exactly the ECMAScript WhiteSpace and LineTerminator code
    points.
- `keyword_table.dfy`, module `KeywordTable`: the first-match scan shared by
  both lookups, with a set of keys the scan skips.
- `ai_chat.dfy`, module `AiChat`: the server table and `handleAIChat`.
- `finance_chatbot.dfy`, module `FinanceChatbot`: the client table,
  `getBotResponse` and the widget state as the class `Chatbot`.

How things are represented:

- **Tables.** Each object literal is written as two sequences of equal
  length, its keys and its replies, in declaration order. Entry `k` of
  `Object.entries(table)` is `(Keys[k], Replies[k])`. The keys are not array
  indices, so `Object.entries` yields them in insertion order (section
  10.1.11.1 of ECMA-262, OrdinaryOwnPropertyKeys). This order is what makes
  "first match wins" well defined.
- **`handleAIChat`.**
  - The request body is `None` when it is absent.
  - The message field is `Missing`, `NonString` or a string.
  - The history field is `Absent`, `Unusable` or a list of turns. `Unusable`
    stands for a value on which `slice` or the loop throws; that throw
    happens inside the provider `try`.
  - The environment variable is an optional string.
  - The provider call is an outcome parameter: `Text(s)`, `NonText` or
    `Threw`.
  - The method also returns the message list it would send, or `None` when
    the provider is not called.
- **`Chatbot`.**
  - `respond` is the component's `getBotResponse`, fixed by the constructor.
  - `greeting` is the first message.
  - `pending` is the input value captured by the `setTimeout` closure. It is
    present exactly while the typing indicator shows.
  - `HandleSendMessage` and `CompleteReply` are the two halves of
    `handleSendMessage`. The class invariant `Valid` says the transcript
    starts with the greeting, and that senders alternate. It also says every
    user message is non-blank and every bot message answers the user message
    just before it.
- **Clock.** `now` is a parameter standing for `Date.now()`; ids and
  timestamps are integers.

## Model

| member | source | states |
|---|---|---|
| Strings.Includes | server/routes/ai-chat.ts:43 | the scan returns true exactly when the key occurs as a contiguous run of the message (`includes`) |
| Strings.ToLowerCase | server/routes/ai-chat.ts:28 | the result has the same length, maps each ASCII capital to its small letter, keeps every other character and has no capitals left |
| Strings.Trim | server/routes/ai-chat.ts:28 | the result is the input with exactly its leading and its trailing whitespace runs removed: a contiguous run of the input, preceded and followed only by whitespace, that neither starts nor ends with whitespace; it is empty exactly when the input is all whitespace |
| Strings.LowerCaseKeepsBlank | server/routes/ai-chat.ts:28 | lowercasing keeps every whitespace character and turns no other character into one, so a message is blank exactly when its lowercase form is |
| Strings.TrimStart | server/routes/ai-chat.ts:28 | drops exactly a leading whitespace run: the result is a suffix of the input that does not start with whitespace |
| Strings.TrimEnd | server/routes/ai-chat.ts:28 | drops exactly a trailing whitespace run: the result is a prefix of the input that does not end with whitespace |
| Strings.IsBlank | client/components/FinanceChatbot.tsx:82 | true exactly when every character of the input is whitespace |
| Strings.BlankIffTrimmedEmpty | client/components/FinanceChatbot.tsx:82 | `!s.trim()` holds exactly when `s` is blank |
| Strings.TrimKeepsKey | server/routes/ai-chat.ts:28 | trimming never changes whether a key without surrounding whitespace occurs in the message |
| Strings.PlainMessageIsNormal | server/routes/ai-chat.ts:28 | a message without capitals or surrounding whitespace is its own lowercased, trimmed form |
| Strings.AbsentCharNotContained | server/routes/ai-chat.ts:43 | a key with a character the message lacks does not occur in it |
| KeywordTable.Normalize | server/routes/ai-chat.ts:28 | `message.toLowerCase().trim()` has no ASCII capitals and neither starts nor ends with whitespace |
| KeywordTable.NormalFormEmptyIffBlank | client/components/FinanceChatbot.tsx:68 | the normal form is empty exactly when the message is blank |
| KeywordTable.FirstMatchFrom | server/routes/ai-chat.ts:42-46 | the scan stops at a key that matches and passes over only keys that do not match, or runs off the end |
| KeywordTable.Lookup | server/routes/ai-chat.ts:42-48 | the reply of the first matching key in declaration order; the default when none matches; always the default or one of the replies |
| KeywordTable.FirstMatchOrNone | server/routes/ai-chat.ts:42-48 | every message either matches no key or has a first matching key |
| KeywordTable.FirstDeclaredWins | server/routes/ai-chat.ts:42-46 | when two keys match, the later one is not the first match and the first match is at or before the earlier one |
| KeywordTable.BlankMessageMatchesNothing | server/routes/ai-chat.ts:28 | a blank message normalises to the empty string, in which no key of a trimmed table matches |
| KeywordTable.TrimDoesNotChangeReply | server/routes/ai-chat.ts:28 | for keys without surrounding whitespace, looking up the trimmed message gives the same reply as the untrimmed one |
| AiChat.GetFallbackResponse | server/routes/ai-chat.ts:27-49 | the reply of the first declared key in the lowercased, trimmed message; the fixed default when none occurs; never empty and always a table reply or the default |
| AiChat.FallbackTableShape | server/routes/ai-chat.ts:30-40 | one reply per key, and no reply (the default included) is empty |
| AiChat.FallbackKeysAreTrimmed | server/routes/ai-chat.ts:31-39 | every server key is non-empty without surrounding whitespace, so trimming the message never changes its reply |
| AiChat.FallbackForNormalMessage | server/routes/ai-chat.ts:27-49 | for a message already lowercased and trimmed, the reply is decided by the scan over the message itself |
| AiChat.BlankMessageGetsDefault | server/routes/ai-chat.ts:55-60 | a whitespace-only message gets exactly the default fallback reply; unless it is the empty string, it passes the 400 check whatever the history |
| AiChat.StocksQuestionAnswered | server/routes/ai-chat.ts:31-33 | the sample sentence `أريد أن أعرف ما هي الأسهم اليوم` gets the stocks reply: `ما هي الأسهم` occurs in it and the two keys declared before it do not |
| AiChat.UnmatchedMessageGetsDefault | server/routes/ai-chat.ts:31-48 | the sample question `what is the weather` contains none of the keys and gets exactly the default reply |
| AiChat.HasMessage | server/routes/ai-chat.ts:55 | the test of `!message` or `typeof message !== 'string'` rejects exactly a missing message, a non-string one and the empty string |
| AiChat.ProviderEnabled | server/routes/ai-chat.ts:63 | the provider is off exactly when the key is unset, empty or `fallback_mode` |
| AiChat.HistoryTurns | server/routes/ai-chat.ts:53 | an absent history defaults to the empty list; a given one is used as is |
| AiChat.ToProviderMessage | server/routes/ai-chat.ts:93-96 | a history turn is sent with the same content, as `user` exactly when its role is `user` and as `assistant` otherwise |
| AiChat.RecentHistory | server/routes/ai-chat.ts:91 | `slice(-6)`: the last `min(6, n)` turns, as a suffix of the history |
| AiChat.BuildProviderMessages | server/routes/ai-chat.ts:88-103 | the list sent holds the recent turns in order, with `user` kept and every other role sent as `assistant`, followed by exactly one user turn with the message |
| AiChat.HandleAIChat | server/routes/ai-chat.ts:51-141 | no body gives 500 with the apology; a missing, empty or non-string message gives 400; status 200 exactly for a valid message; the provider is called exactly when the key is configured and the history is usable; its text is the reply; anything else falls back to the keyword table; the only empty reply is empty provider text |
| FinanceChatbot.GetBotResponse | client/components/FinanceChatbot.tsx:67-79 | the reply of the first non-`default` key in the lowercased, trimmed message; `predefinedResponses.default` when none occurs; always a non-empty table value |
| FinanceChatbot.ResponseTableShape | client/components/FinanceChatbot.tsx:14-44 | sixteen entries, one reply per key, no empty reply, and the last entry is `default` |
| FinanceChatbot.BotResponseForNormalMessage | client/components/FinanceChatbot.tsx:67-79 | for a message already lowercased and trimmed, the reply is decided by the scan over the message itself |
| FinanceChatbot.GreetingAnswered | client/components/FinanceChatbot.tsx:16 | the message `مرحبا` gets the greeting reply, its key being the first entry |
| FinanceChatbot.SavingQuestionAnswered | client/components/FinanceChatbot.tsx:16-27 | the sample question `كيف أوفر المال` gets the piggy-bank reply: its key occurs in it and none of the seven keys declared before it does |
| FinanceChatbot.DefaultKeyIsNeverMatched | client/components/FinanceChatbot.tsx:72-78 | the message `default` matches no key and gets the default reply, although a key of that name exists, because the scan passes over that key |
| FinanceChatbot.ResponseKeysAreTrimmed | client/components/FinanceChatbot.tsx:14-44 | every client key is non-empty without surrounding whitespace |
| FinanceChatbot.BlankMessageGetsDefaultResponse | client/components/FinanceChatbot.tsx:67-79 | a whitespace-only message gets the default reply |
| FinanceChatbot.AppendExtendsConversation | client/components/FinanceChatbot.tsx:91 | appending a message that properly follows the last one keeps the transcript a conversation and leaves the earlier messages in place |
| FinanceChatbot.ConversationSteps | client/components/FinanceChatbot.tsx:81-106 | in a conversation, the first message is the bot's, and each message follows the one before it: senders alternate, user text is non-blank, and each bot text answers the user text before it |
| FinanceChatbot.GreetingStartsChat | client/components/FinanceChatbot.tsx:47-56 | the greeting alone is a chat state with no reply pending |
| FinanceChatbot.SendKeepsChatState | client/components/FinanceChatbot.tsx:82-93 | sending a non-blank input keeps the chat state, with that input pending |
| FinanceChatbot.ReplyKeepsChatState | client/components/FinanceChatbot.tsx:96-106 | appending the reply to the pending input keeps the chat state, with nothing pending |
| FinanceChatbot.Chatbot.constructor | client/components/FinanceChatbot.tsx:47-56 | the transcript is the one bot greeting; the input is empty; the typing indicator is off |
| FinanceChatbot.Chatbot.SetInputValue | client/components/FinanceChatbot.tsx:204 | the input becomes the typed value and nothing else changes; typing while a reply is pending keeps the state valid, because the reply answers the captured input |
| FinanceChatbot.Chatbot.HandleSendMessage | client/components/FinanceChatbot.tsx:81-93 | blank input changes nothing; otherwise exactly one user message with the raw, untrimmed input is appended, the input is cleared, the indicator shows and the input is captured for the reply |
| FinanceChatbot.Chatbot.HandleKeyPress | client/components/FinanceChatbot.tsx:109-113 | Enter sends the message as above; any other key changes nothing |
| FinanceChatbot.Chatbot.CompleteReply | client/components/FinanceChatbot.tsx:96-106 | exactly one bot message answering the captured input is appended; that input is the text of the last user message; the indicator is off and the input field is untouched |

## Left out

- React rendering, CSS classes, icons and the auto-scroll effect
  (client/components/FinanceChatbot.tsx:59-65, 115-213): these are display
  only.
- `Date.now()` ids: these are integers here, not their decimal strings.
  `new Date()` timestamps are the same integer, and their locale formatting
  is left out.
- The 1000 ms `setTimeout` delay: the reply is the explicit step
  `CompleteReply`, taken whenever the indicator shows.
- The provider SDK call, the model name, `max_tokens` and the system prompt
  (server/routes/ai-chat.ts:65-85, 105-110): these are a network call, so
  only their outcome is a parameter.
- The lazily created client singleton (server/routes/ai-chat.ts:5-14), the
  console logging and the Express request and response objects.
- ToLowerCase: only ASCII capitals are mapped. JavaScript also lowers other
  cased scripts; neither table nor any sample message uses them.
- HandleAIChat: the only failure modelled outside the provider `try` is a
  missing request body. A failing `res.json` is not modelled.
- Strings are sequences of Unicode scalar values, not of UTF-16 code units,
  so lone surrogates are not modelled. Every key and sample message is
  well-formed text in the Basic Multilingual Plane, so no reply depends on
  this.
- FinanceChatbot.Chatbot.HandleSendMessage and HandleKeyPress require that
  the indicator is off. The handler itself does not check this; the send
  button and the input field are disabled while it shows
  (client/components/FinanceChatbot.tsx:197, 208).
