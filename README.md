# AI-Nexus chat exchange, modelled in Dafny

AI-Nexus is a browser chat front-end. It offers four "AI personas" (Gemini 3,
ChatGPT, Grok, DeepSeek). All four are the same hosted Gemini API, called with a
persona-specific system instruction and one of two model names. The only logic
beyond presentation is one conversation exchange: the chat panel's submit
handler and the streaming service call it relies on. The service also exports
a one-shot call, `generateResponse`, which no part of the user interface calls;
it is modelled as part of the service. This project models the exchange and
both service calls, and proves what they promise.

- `types.dfy` (module `Types`) holds the persona enumeration (`ModelId`, with the
  string code each member stands for at run time), the roles, and the `Message`
  turn (role, content, id, timestamp, optional `modelUsed`). It also holds the
  `Option` and `Result` wrappers.
- `text.dfy` (module `Text`) holds JavaScript's `String.prototype.trim` over the
  ECMAScript whitespace set. It also holds `Concat`, the joining of streamed
  pieces.
- `gemini_service.dfy` (module `GeminiService`) holds the persona lookups
  `GetSystemInstruction` and `GetModelName`. It holds the request assembly of
  both calls and the fallback of the one-shot `generateResponse`. It also holds
  `GenerateStreamResponse`, the chunk-filtering loop of the streaming call.
- `chat_interface.dfy` (module `ChatInterface`) holds the panel's state as a
  class, `ChatSession`, with fields `input`, `messages`, `isLoading` and an id
  counter `nextId`.
  - The handler's steps between awaits are methods: `BeginSubmit`,
    `ReceiveChunk`, `ConsumeStream`, `FailExchange`, `EndExchange` and `Settle`.
  - `Submit` runs one exchange from start to end.
  - Splitting the handler into steps lets a caller start an exchange and then
    submit again while it is loading. The model shows that second submission
    being ignored.

The stream's behaviour is an input: `Upstream(chunks, failAt)`. Its chunks are
the texts that arrive, where an absent text is `None`. `failAt`, when present,
is the number of chunks that arrive before the stream throws. The one-shot
call's hosted model is a function parameter `api`.

The model follows these details of the code:
- The assistant placeholder is appended before the stream is asked for anything
  (ChatInterface.tsx:53-62), not when the first fragment arrives.
- A taken submission also clears the input box (ChatInterface.tsx:45).
- The conversation's "last error" field (`ChatState.error`, types.ts:16-20) is
  never written by the handler. A failure only appends a system turn.
- Error turns and assistant turns both go to the API as `model` turns
  (ChatInterface.tsx:66). That includes an empty placeholder left by a failed
  stream.

## Model

| member | source | states |
|---|---|---|
| Types.ModelId.Code | types.ts:1-6 | each persona stands for a non-empty run-time string code |
| Types.CodeInjective | types.ts:1-6 | distinct personas have distinct codes |
| Text.Trim | components/ChatInterface.tsx:35-40 | `trim()` is empty exactly when the input is whitespace only; otherwise the result neither starts nor ends with whitespace |
| Text.TrimIsInfix | components/ChatInterface.tsx:40 | trim removes only whitespace, only at the two ends: its result is a contiguous part of the input with whitespace margins |
| Text.TrimIdempotent | components/ChatInterface.tsx:40 | trimming an already trimmed text changes nothing |
| Text.ConcatAppend | components/ChatInterface.tsx:72-75 | `fullResponse += chunk` extends the joined text by exactly that chunk |
| Text.ConcatSplit | components/ChatInterface.tsx:72-83 | joining the pieces distributes over any split of them |
| GeminiService.GetSystemInstruction | services/geminiService.ts:7-27 | the lookup is total, and every instruction starts with the base instruction "Отвечай строго на русском языке." |
| GeminiService.GetModelName | services/geminiService.ts:29-43 | `gemini-3-pro-preview` exactly for the Gemini 3 code; `gemini-2.5-flash` for every other code, including unknown ones |
| GeminiService.InstructionsDistinct | services/geminiService.ts:11-25 | the four personas get pairwise distinct instructions |
| GeminiService.UnknownCodeIsGemini | services/geminiService.ts:23-42 | a code outside the enumeration gets the Gemini instruction (the shared default branch) and the flash model |
| GeminiService.GenerateContentRequest | services/geminiService.ts:52-64 | the one-shot request carries the persona's own model name and system instruction (the two lookups of that persona's code); its contents are the given history, unchanged, followed by exactly one user turn holding the prompt |
| GeminiService.StreamRequest | services/geminiService.ts:79-90 | the chat opens with the given history, unchanged, and the persona's own model name and system instruction (the two lookups of that persona's code, so `gemini-3-pro-preview` exactly for Gemini 3 and an instruction opening with the base instruction); the prompt is its message |
| GeminiService.PersonaOnlyDecidesConfig | services/geminiService.ts:52-80 | the model name and instruction of either request depend only on the persona, not on the prompt or the history |
| GeminiService.UserTurn | services/geminiService.ts:59 | the prompt turn is a `user` turn whose one part is the prompt, unchanged |
| GeminiService.StreamAndOneShotAgree | services/geminiService.ts:57-90 | the chat session's history plus its message is the one-shot call's contents, with the same model and instruction |
| GeminiService.GenerateResponse | services/geminiService.ts:45-71 | an error from the call is rethrown unchanged; otherwise the reply's text is returned when non-empty and the fixed fallback text otherwise, so the result is never empty |
| GeminiService.NonEmptyTexts | services/geminiService.ts:92-97 | the stream yields at most one piece per chunk, never `""`, each an unmodified text of some chunk |
| GeminiService.NonEmptyTextsJoin | services/geminiService.ts:92-97 | the yielded pieces join to all chunk texts joined, with an absent text counted as `""` |
| GeminiService.NonEmptyTextsSplit | services/geminiService.ts:92-97 | filtering works chunk by chunk and keeps arrival order: pieces of a split stream are the pieces of each part, in order |
| GeminiService.GenerateStreamResponse | services/geminiService.ts:73-98 | the loop opens the chat with the persona's model and instruction and the given history, and yields exactly `NonEmptyTexts` of the chunks |
| ChatInterface.HistoryRole | components/ChatInterface.tsx:66 | role `user` maps to `"user"`; `assistant` and `system` both map to `"model"` |
| ChatInterface.ToHistory | components/ChatInterface.tsx:65-68 | the history has the conversation's length and order; each turn's role is mapped as above and its only part is the message's content |
| ChatInterface.ToHistoryAppend | components/ChatInterface.tsx:65-68 | the history of a longer conversation is the earlier history followed by the history of the added turns |
| ChatInterface.UpdateById | components/ChatInterface.tsx:76-82 | the update keeps the length and every id, role, timestamp and `modelUsed`; it gives new content to exactly the messages with that id |
| ChatInterface.UpdateByIdOnlyTarget | components/ChatInterface.tsx:76-82 | when one message alone has the id, the update rewrites that message's content and leaves every other message equal |
| ChatInterface.Upstream.Delivered | components/ChatInterface.tsx:74-85 | the chunks that arrive form a prefix of the stream: all of it when it does not throw, its first `failAt` chunks when it does |
| ChatInterface.PartialReplyIsPrefix | components/ChatInterface.tsx:72-95 | no rollback, no reordering: a broken stream leaves a prefix of the reply the whole stream would have given |
| ChatInterface.UserMessage | components/ChatInterface.tsx:37-42 | the user turn carries the prompt and no persona tag, and goes back to the API as exactly the prompt turn the service itself appends |
| ChatInterface.Placeholder | components/ChatInterface.tsx:51-61 | the placeholder starts empty, is tagged with the selected persona, and goes to the API as a `model` turn |
| ChatInterface.ErrorMessage | components/ChatInterface.tsx:89-94 | the error turn carries the fixed apology and no persona tag, and goes back to the API as a `model` turn with that text |
| ChatInterface.ExchangeTurns | components/ChatInterface.tsx:37-95 | a taken submission adds two turns, or three when the stream threw, with consecutive ids |
| ChatInterface.Accepts | components/ChatInterface.tsx:35 | a submission is taken exactly when no exchange is loading and the input is not whitespace only |
| ChatInterface.ExchangeTurnsShape | components/ChatInterface.tsx:37-95 | a taken submission adds, in order, a user turn with the prompt, an assistant turn tagged with the persona holding the joined pieces, and, exactly on failure, one system turn with the fixed error text; ids are consecutive |
| ChatInterface.ChatSession.constructor | components/ChatInterface.tsx:11-13 | the panel starts with an empty box, no turns and not loading |
| ChatInterface.ChatSession.SetInput | components/ChatInterface.tsx:201 | typing replaces the box's text |
| ChatInterface.ChatSession.BeginSubmit | components/ChatInterface.tsx:33-68 | refused (nothing changes) exactly when the trimmed input is empty or an exchange is loading; otherwise appends the user turn and the empty placeholder tagged with the persona, clears the box, sets loading, and sends the history of the turns from before this submission |
| ChatInterface.ChatSession.ReceiveChunk | components/ChatInterface.tsx:75-82 | the conversation becomes the id-update of the old one with the text received so far |
| ChatInterface.ChatSession.ConsumeStream | components/ChatInterface.tsx:72-83 | after the loop the placeholder holds all pieces joined in arrival order; the length and every other turn are unchanged; its loop invariant: after k pieces the placeholder holds the first k joined |
| ChatInterface.ChatSession.FailExchange | components/ChatInterface.tsx:85-95 | exactly one system turn with the fixed error text is appended; nothing before it changes |
| ChatInterface.ChatSession.EndExchange | components/ChatInterface.tsx:96-98 | loading is cleared |
| ChatInterface.ChatSession.Settle | components/ChatInterface.tsx:85-98 | on failure one error turn is appended, otherwise nothing; loading ends false either way |
| ChatInterface.ChatSession.RunExchange | components/ChatInterface.tsx:50-98 | sends the persona's request; the placeholder ends with the joined pieces that arrived; an error turn follows exactly on failure; loading ends false |
| ChatInterface.ChatSession.Submit | components/ChatInterface.tsx:33-99 | refused exactly when the trimmed input is empty or loading, and then changes nothing; otherwise sends the trimmed input with the earlier turns' history, keeps those turns unchanged (content and `modelUsed` tags), appends `ExchangeTurns`, advances the id counter by one per added turn, and ends with an empty box and loading false |

## Left out

- Rendering is left out: JSX, scroll-to-bottom, textarea auto-resize and its reset (ChatInterface.tsx:48), `renderMessageContent`, the typing indicator, and the Enter-key handler, which only calls the submit handler. These are presentation.
- App.tsx, AuthOverlay.tsx, Hero.tsx, ModelSelector.tsx and the display metadata `MODEL_CONFIGS` are left out: they are user interface only. The selected persona is a parameter of the exchange.
- The `GoogleGenAI` client, `chats.create`, `sendMessageStream`, `generateContent` and the `API_KEY` credential are not modelled. They are foreign network calls. The model states which request they receive; their answer is an input (`Upstream`, or the `api` function).
- `console.error` logging is left out: it has no effect on state.
- Async scheduling and React's batching of state updates are not modelled. Each exchange step runs as one sequential step. The handler reads `messages` from its render, which is the state before the submission, and that is what the model uses.
- `Date.now()` ids and timestamps are not modelled, because the wall clock cannot be. Ids come from a counter, so they are unique by construction. All timestamps of one exchange are one `now` argument. In the source, an id is a clock reading, and the placeholder's id is its reading plus one (ChatInterface.tsx:51). Two turns can then share an id when two readings fall in the same millisecond, or when the placeholder's reading plus one equals a later reading, such as the error turn of a stream that throws one millisecond later (ChatInterface.tsx:90). The counter rules out both.
- The stop button (ChatInterface.tsx:218) issues no cancellation, so none is modelled.
- The `ModelId.CLAUDE` cases (geminiService.ts:20-21, 37) are left out. `CLAUDE` is not a member of the enum, so those cases only match `undefined`, which is not a persona code.
- GeminiService.GetSystemInstruction: each persona's own text is shortened to its opening clause. The shared base instruction is kept exactly, and the four texts stay pairwise distinct, as in the source.
