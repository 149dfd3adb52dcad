# Mental Health Companion: reply interpretation and conversation state, in Dafny

This project models the core of a browser chat front-end. The user picks a
topic and then talks to a hosted language model. The model may answer with
prose, or with a JSON object `{"youtube_search_query": "..."}` that names a
video search, either bare or wrapped in a ``` fence.

The model covers two source files:

- `geminiService.ts` (module `GeminiService`)
  - the lazily created client singleton (`AiService.GetAiClient`);
  - chat creation with a topic-specific system instruction (`AiService.InitializeChat`);
  - `sendMessageToAI` (`SendMessageToAI`). It trims the reply, unwraps a
    fence, recognises a directive, and otherwise passes the reply through
    untouched. Every failure becomes a display string chosen by
    case-insensitive phrase matching.
- `App.tsx` (module `App`): the page state. Its five fields are the topic, the
  message log, the busy flag, the chat session and the configuration error.
  It lives in class `ChatApp`, whose methods are the three handlers. The two
  asynchronous handlers are split at their first `await` into `Begin…` and
  `Finish…` steps, so that the busy state in between can be seen.

Supporting modules:

- `Text`: the JavaScript primitives the code relies on. These are `trim`, the
  regular-expression classes `\s` and `\w` as greedy scans, `toLowerCase` and
  `includes`.
- `Messages`: the `ChatMessage` record of `types.ts`.
- `Constants`: the model name and the persona prompt of `constants.ts`.
- `Wrappers`: `Option` and `Result`.

The fence expression `/^```(\w*)?\s*\n?(.*?)\n?\s*```$/s` is modelled by
what it computes, not by a regex engine:

- It matches exactly the strings of six or more characters that open and
  close with three backticks.
- The greedy tag and white-space runs always leave a match possible, so the
  engine never backtracks into them.
- The lazy capture is what remains up to the trailing white space before the
  closing fence.
- `UnwrapFenceSound` and `UnwrapFenceComplete` tie this computation to the
  shape "fence, word-character tag, white space, content, white space, fence".

Three behaviours of the code are worth stating explicitly:

- A failed mid-conversation send reaches the log as an ordinary `ai`
  message. `sendMessageToAI` catches every error and returns a display text
  (geminiService.ts:65-82), so the `system`-message branch of
  `handleSendMessage` (App.tsx:88-97) is never reached
  (`App.ChatApp.FinishSend`).
- A send with no active session is silently ignored: the guard at
  App.tsx:67 simply returns (`App.ChatApp.BeginSend`).
- Message ids and timestamps come from `crypto.randomUUID()` and
  `Date.now()` (App.tsx:42,46,54,57,70,73,81,85) with no check. They are parameters
  here, and nothing makes them unique or non-decreasing.

## Model

| member | source | states |
|---|---|---|
| `Text.Trim` | geminiService.ts:38 | the trimmed text has no white space at either end, and is empty exactly when the input is all white space |
| `Text.TrimOf` | geminiService.ts:38 | trimming removes exactly the surrounding white space: a string whose ends are not white space is returned unchanged from any padding |
| `Text.SpanWord` | geminiService.ts:39 | the greedy `\w*` run: every character before the result is a word character and the one at the result is not |
| `Text.SpanSpace` | geminiService.ts:39 | the greedy `\s*` run: every character before the result is white space and the one at the result is not |
| `Text.BackSpace` | geminiService.ts:39 | the trailing white space before the closing fence: everything from the result on is white space and the character before it is not |
| `Text.Lower` | geminiService.ts:70 | lower-casing keeps the length and maps every character through the letter mapping |
| `Text.LowerIdempotent` | geminiService.ts:70 | lower-casing twice equals lower-casing once |
| `Text.Contains` | geminiService.ts:70 | `includes` holds exactly when the needle occurs at some index |
| `GeminiService.IsFenced` | geminiService.ts:39-40 | the match condition of the fence expression: at least six characters, opening and closing with three backticks (any body between the fences is accepted under the `s` flag) |
| `GeminiService.UnwrapFence` | geminiService.ts:39-42 | only a string opening and closing with a fence is unwrapped; an empty capture is never returned, and the capture has no white space at either end |
| `GeminiService.UnwrapFenceSound` | geminiService.ts:39-42 | whatever is unwrapped sits between the opening fence, a word-character tag, white space, white space and the closing fence |
| `GeminiService.UnwrapFenceComplete` | geminiService.ts:39-42 | a fence around content that neither starts nor ends with white space unwraps to exactly that content, for any tag and any white space around it; when no white space follows the tag, the content must also not start with a word character, since the tag would absorb it |
| `GeminiService.EmptyFenceNotUnwrapped` | geminiService.ts:39-42 | a fence holding only a tag and white space yields no capture, so it is not unwrapped |
| `GeminiService.CaptureIsTrimmed` | geminiService.ts:43 | the second trim of the capture changes nothing |
| `GeminiService.Candidate` | geminiService.ts:38-44 | the text offered to the JSON parser has no white space at either end |
| `GeminiService.Braced` | geminiService.ts:46 | the candidate starts with `{` and ends with `}`; such a candidate has at least two characters |
| `GeminiService.IsDirective` | geminiService.ts:46-49 | the reply is a directive exactly when its candidate is braced and parses to an object whose `youtube_search_query` is a string |
| `GeminiService.DirectiveText` | geminiService.ts:52 | the fixed sentence quotes the query verbatim |
| `GeminiService.InterpretReply` | geminiService.ts:35-63 | a query is present exactly when the candidate starts with `{`, ends with `}` and parses to an object whose `youtube_search_query` is a string; the query is then that string and the text is the fixed sentence; on every other path the text is the original untrimmed reply |
| `GeminiService.ProseIsPassedThrough` | geminiService.ts:46-63 | a reply whose trimmed text starts with neither `{` nor a backtick is returned unchanged with no query, whatever the parser would say |
| `GeminiService.FencedDirectiveMatchesBare` | geminiService.ts:38-52 | a directive in a fence, with any tag and any white space around it, gives the same query and text as the bare directive |
| `GeminiService.EmptyFenceIsProse` | geminiService.ts:38-46 | a reply that is only an empty fence is shown as received, with no query |
| `GeminiService.Classify` | geminiService.ts:70-78 | the error phrases are tested on the lower-cased message in priority order (invalid key, then quota, then safety block); the first one found decides |
| `GeminiService.ClassifyIgnoresCase` | geminiService.ts:70-74 | the category of a message equals the category of its lower-cased form |
| `GeminiService.UnexpectedTextIsDistinct` | geminiService.ts:67-77 | the generic "unexpected error" text never equals one of the fixed texts |
| `GeminiService.ErrorText` | geminiService.ts:65-81 | each fixed text is produced exactly for its own category, the default apology exactly for a non-`Error` throw, and otherwise the text is the generic prefix followed by the message |
| `GeminiService.SendMessageToAI` | geminiService.ts:32-83 | never fails; the query is present exactly for a recognised directive, and it is then the string the parser found in `youtube_search_query` and the text is the directive sentence for it; a failed call has no query and shows the mapped error text |
| `GeminiService.SystemInstruction` | geminiService.ts:21 | the instruction is the persona prompt, then ` The current conversation topic is: `, the topic and `.`; it contains the topic |
| `GeminiService.KeyPresent` | geminiService.ts:9 | `process.env.API_KEY` is truthy exactly when it is neither unset nor the empty string |
| `GeminiService.InitFailure` | geminiService.ts:8-28 | `initializeChat` throws exactly when there is no client and no key (then the missing-key error), or when chat creation throws (then that error); with a client already stored the key is not consulted |
| `GeminiService.AiService.GetAiClient` | geminiService.ts:7-17 | with no client and no key it fails with the missing-key error and keeps no client; with no client and a key it creates and stores a fresh client with that key; once a client exists it is returned unchanged and the key is not checked |
| `GeminiService.AiService.InitializeChat` | geminiService.ts:19-30 | fails with the missing-key error or with what chat creation throws; an existing client is kept, and with no client one is created and stored exactly when the key is present, even if chat creation then throws; a created chat uses the stored client, the configured model and the topic's system instruction |
| `App.GreetingPrompt` | App.tsx:38 | the greeting prompt quotes the submitted topic verbatim |
| `App.InitFailureText` | App.tsx:52 | a thrown `Error` is shown by its own message, unmapped (so the missing-key error shows its message verbatim); any other thrown value shows the fixed initialisation text |
| `App.AiMessage` | App.tsx:41-47 | the log entry for a reply is an `ai` message with the given id and time, carrying the reply's text and query; a reply whose query comes with its directive sentence yields a well-formed one-message log |
| `App.ChatApp.KeyErrorSet` | App.tsx:28 | `apiKeyError` is truthy exactly when it is neither null nor the empty string |
| `App.ChatApp.CanSend` | App.tsx:67 | the guard passes exactly when a session exists, nothing is loading, the text has a character that is not white space, and no configuration error is set |
| `App.ChatApp.constructor` | App.tsx:10-14 | no topic, empty log, not busy, no session; the configuration error is the one given |
| `App.ChatApp.BeginTopicSubmit` | App.tsx:27-32 | with a configuration error set nothing changes; otherwise the page is busy, the log is empty and the topic is the submitted one |
| `App.ChatApp.FinishTopicSubmit` | App.tsx:34-63 | if chat creation succeeds, the session (stored client, configured model, topic's instruction) is stored, the greeting prompt is sent and the log becomes exactly one `ai` message from the interpreted reply; if it throws, the log becomes exactly one `system` message with the error text and the topic is dropped; the service keeps an existing client and otherwise holds a fresh one exactly when the key is present, even after a failure; either way the page is no longer busy |
| `App.ChatApp.HandleTopicSubmit` | App.tsx:27-64 | the whole handler: a no-op (page and service unchanged) under a configuration error; otherwise topic, session with the configured model and a one-message log on success, or a one-`system`-message log and no topic on failure, with the service's client kept, or created exactly when the key is present |
| `App.ChatApp.BeginSend` | App.tsx:66-76 | the guard lets a message through exactly when a session exists, nothing is loading, the text is not blank after trimming and no configuration error is set; a refused send changes nothing; an accepted one appends the untrimmed text as a `user` message and marks the page busy |
| `App.ChatApp.FinishSend` | App.tsx:78-100 | appends exactly one `ai` message carrying the interpreted reply's text and query, keeps every earlier message and clears the busy flag |
| `App.ChatApp.HandleSendMessage` | App.tsx:66-101 | an accepted send keeps the log and appends exactly the `user` message and then the `ai` reply; a refused one changes nothing |
| `App.ChatApp.Reset` | App.tsx:127-131 | no topic, empty log and no session, with the busy flag and configuration error kept; afterwards the send guard refuses every text |

Every `ChatApp` method also keeps the log invariant `Valid()`: a message
carries a search query only if it is an `ai` message whose text is the
directive sentence for that query.

## Left out

- `JSON.parse` is a parser oracle (`JsonParser`). It reports a syntax error, or
  the `youtube_search_query` field of the parsed object: absent, a string, or
  something else. A text that starts with `{` can only parse to an object, so
  the truthiness test on the parse result always holds and is not modelled.
- The `@google/genai` SDK and the network. The client is reduced to its key.
  A chat is reduced to its client, model name and system instruction. What
  `chat.sendMessage` does is a supplied outcome (`ServiceOutcome`), and what
  `chats.create` throws is a supplied optional error. The model does not
  represent the history the SDK keeps inside a session.
- A response whose `text` is missing is not modelled: the reply is always a
  string. In the code, such a response would fail inside `trim` and reach
  the generic error text.
- `Text.Lower`: only the ASCII letters A–Z are lower-cased. JavaScript's
  `toLowerCase` also maps other letters and can change the length of a
  string. This can change an error's category: U+212A KELVIN SIGN
  lower-cases to ASCII `k`, so a message such as `API \u212AEY NOT VALID`
  is an invalid-key error in the source but `Unexpected` in the model.
- Strings are sequences of Unicode scalar values, not UTF-16 code units, so
  lone surrogates cannot be represented.
- The start-up check of the environment in `useEffect` (App.tsx:16-25) is not
  modelled. The configuration error it would set is the constructor's
  argument, and the key seen by the service is a parameter of each call.
- The error branch of `handleSendMessage` (App.tsx:88-97) is not modelled. It
  cannot be reached, because `sendMessageToAI` never throws
  (`GeminiService.SendMessageToAI` is total).
- `crypto.randomUUID()` and `Date.now()` are parameters (`id`, `now`).
- `console.error` logging is not modelled.
- The JSX rendering (App.tsx:103-138) is not modelled.
- React's asynchronous state updates and stale closures are not modelled.
  Each handler step is atomic and reads the current state.
- Concurrent handlers are not modelled.
- `App.ChatApp.FinishTopicSubmit`: this step covers both awaits of
  `handleTopicSubmit` (App.tsx:35,39). The state between them cannot be
  observed: the chat is stored, the page is still busy and the log is empty.
- `constants.ts` is modelled only as two constant strings.
