# Local AI chat: a Dafny model of the relay, the catalog, the store and the client logic

The application is a browser chat front end for language models served
locally by Ollama or LM Studio. This project models its core:

- **the chat relay** (`POST /api/chat`, module `ChatRelay`). It puts the
  configured system prompt first and shapes the request for the selected
  backend. It then translates the backend's stream into uniform frames
  (`data: {"content": …}` and `data: [DONE]`), or extracts the whole reply
  when streaming is off. Backend errors and transport failures become JSON
  error responses.
- **the model catalog** (`GET /api/models`, module `ModelCatalog`). It fills
  in the query defaults, calls the backend's catalog endpoint and answers
  with the model identifiers.
- **the client store** (module `Store`). This is the conversation, the
  loading and recording flags, the settings and the model list, with the
  actions that replace them.
- **the page's send handler** (module `Page`). It records the user's turn,
  posts the conversation to the relay and decodes the relay's stream into
  the assistant message, chunk by chunk.
- **the settings panel** (module `SettingsPanel`). It refreshes the model
  list and reconciles the selected model with it. It also covers the
  provider selector with its base-URL defaults and the streaming toggle.
- **the input box** (module `ChatInput`). It covers the submit guard, the
  accumulation of speech-recognition results and the recording flag.

Shared vocabulary sits in `Js` (absent fields, `JSON.parse` outcomes,
truthiness, `a || b`), `Text` (`trim`, `split('\n')`, the blank-line filter,
concatenation), `Wire` (HTTP responses, `fetch` outcomes, the relay's JSON
payload, event-stream framing) and `Chat` (roles, turns, settings). The
module `EndToEnd` connects the relay to the page and the catalog to the
panel. In that module the frames the relay writes are read back by the page.

Everything the program gets from outside is a parameter:

- Every `fetch` is a function from the request to `Fetched`. The outcome is
  either `Threw(message)` or `Received(HttpResponse(status, chunks))`. The
  body is the list of chunks a reader delivers, and `.text()`/`.json()`
  read their concatenation.
- Every `JSON.parse` is a function to `Parsed<T>`, which is
  `Parsed(fields) | Malformed(message)`.
- `JSON.stringify` of the relay's own payloads is a function
  `Payload -> string`.
- The end-to-end lemmas assume `Wire.Inverse(parse, stringify)`. It states
  that parsing a stringified payload gives it back, and that the text is a
  one-line object literal.

Two behaviours of the relay worth knowing:

- The relay never adds a closing `data: [DONE]` of its own. A `Done` frame
  is written only when the backend signals the end (Ollama's `done`, or
  LM Studio's own `[DONE]` line). So a stream that ends without that signal
  reaches the page without a terminator, and a repeated signal is relayed
  twice (`ChatRelay.DoneFramesMatchSignals`).
- The configured system turn is added even when the caller's history
  already holds one (`ChatRelay.SystemTurnNotDeduplicated`).

## Model

| member | source | states |
|---|---|---|
| ChatRelay.OutboundTurns | app/api/chat/route.ts:24-30 | a non-empty system prompt becomes one system turn ahead of the caller's turns, which follow unchanged; an empty prompt sends the caller's turns as they are |
| ChatRelay.SystemTurnNotDeduplicated | app/api/chat/route.ts:24-30 | with a non-empty prompt the outbound list holds exactly one more system turn than the caller sent: an existing system turn is not replaced |
| ChatRelay.BuildRequest | app/api/chat/route.ts:33-61 | Ollama gets `/api/chat` with the five sampling options nested; any other provider gets `/v1/chat/completions` with temperature, max tokens and top-p at top level; model, stream flag and outbound turns are shared |
| ChatRelay.CompletionsIgnoreTopKAndRepeatPenalty | app/api/chat/route.ts:50-61 | for LM Studio, changing top-k or repeat penalty leaves the request unchanged |
| ChatRelay.OllamaLine | app/api/chat/route.ts:100-115 | a line gives a content frame exactly when it parses with a truthy `message.content`, then a Done frame exactly when `done` is truthy; an unparsable line gives nothing |
| ChatRelay.LmStudioLine | app/api/chat/route.ts:116-137 | only `data: ` lines count; `[DONE]` gives a Done frame; any other payload gives a content frame exactly when it parses with a truthy `choices[0].delta.content` |
| ChatRelay.TranslateLine | app/api/chat/route.ts:99-138 | every content frame the relay emits carries a non-empty fragment, whichever backend |
| ChatRelay.TranslateLines | app/api/chat/route.ts:99-139 | the non-empty-fragment guarantee holds for a whole list of lines |
| ChatRelay.TranslateChunk | app/api/chat/route.ts:96-139 | a chunk's frames, built from its non-blank lines, carry only non-empty fragments |
| ChatRelay.RelayFrames | app/api/chat/route.ts:92-140 | the frames of a whole stream carry only non-empty fragments |
| ChatRelay.StreamLines | app/api/chat/route.ts:92-97 | every line the relay reads from the stream is non-blank and holds no line feed |
| ChatRelay.TranslateLinesAppend | app/api/chat/route.ts:99-139 | lines are translated independently: the frames of two runs of lines are the frames of the first followed by those of the second |
| ChatRelay.StreamLinesAppend | app/api/chat/route.ts:92-97 | the lines of two runs of chunks are the lines of the first followed by those of the second |
| ChatRelay.RelayFramesAppend | app/api/chat/route.ts:92-140 | frames follow chunk order: splitting the stream anywhere splits its frames at the same place |
| ChatRelay.RelayFramesOfChunk | app/api/chat/route.ts:92-140 | a one-chunk stream yields exactly that chunk's frames |
| ChatRelay.UnparsableLineSkipped | app/api/chat/route.ts:100-138 | an unparsable line anywhere among the lines is skipped: the frames are those of the other lines, and the stream does not abort |
| ChatRelay.ChunkOfLines | app/api/chat/route.ts:97 | a chunk made of some lines yields the frames of its non-blank lines alone |
| ChatRelay.DoneFramesMatchSignals | app/api/chat/route.ts:100-138 | the number of Done frames equals the number of backend end signals: none is added and none is merged |
| ChatRelay.FrameLine | app/api/chat/route.ts:104-131 | a frame's line starts with `data: `; its payload is `[DONE]` for Done and the stringified `{content}` for a content frame |
| ChatRelay.EncodeFrame | app/api/chat/route.ts:104-131 | an enqueued frame is its line followed by a blank line (`\n\n`) |
| ChatRelay.EncodeFrames | app/api/chat/route.ts:104-131 | each frame becomes one chunk of its own, `data: <json>` followed by a blank line, in frame order |
| ChatRelay.CompleteContent | app/api/chat/route.ts:159-166 | the non-streamed reply is `message.content` for Ollama and `choices[0].message.content` otherwise; it is empty exactly when that field is absent or empty |
| ChatRelay.Post | app/api/chat/route.ts:63-177 | a transport failure answers 500 with its message or `Failed to connect to AI service`; a non-2xx status is passed on with `API Error: ` plus the backend's body; streaming answers the encoded frames; otherwise the extracted content, or 500 when the body is not JSON; the answer is 2xx exactly in the two success cases |
| ModelCatalog.Param | app/api/models/route.ts:7-8 | a missing or empty query parameter takes the default, otherwise its own value |
| ModelCatalog.Query | app/api/models/route.ts:6-8 | provider and base URL are never empty; they default to `ollama` and `http://localhost:11434` |
| ModelCatalog.Endpoint | app/api/models/route.ts:13-18 | Ollama's catalog is `/api/tags`; any other provider's is `/v1/models` |
| ModelCatalog.Names | app/api/models/route.ts:33 | the projection keeps the entries' `name`s, one per entry, in order |
| ModelCatalog.Ids | app/api/models/route.ts:36 | the projection keeps the entries' `id`s, one per entry, in order |
| ModelCatalog.ModelIds | app/api/models/route.ts:30-37 | the identifiers are Ollama's `models[].name` or LM Studio's `data[].id`, in order; an absent list gives none |
| ModelCatalog.Get | app/api/models/route.ts:10-47 | a thrown fetch or unparsable body answers 500 with its message or `Failed to fetch models`; a non-2xx status is passed on with `Failed to fetch models`; otherwise 200 with the identifiers |
| ModelCatalog.ErrorHidesBackendBody | app/api/models/route.ts:22-27 | on a non-2xx status the answer does not depend on the backend's body |
| Store.Initial | app/store.ts:39-55 | no messages, both flags off, no models; Ollama at `http://localhost:11434` with `llama2`, 2048 tokens, top-k 40, a non-empty system prompt, streaming on |
| Store.AddMessage | app/store.ts:57-67 | exactly one message with the given role and content is appended; earlier messages and all other fields stay |
| Store.ClearMessages | app/store.ts:69 | the conversation becomes empty and nothing else changes |
| Store.SetLoading | app/store.ts:71 | only the loading flag changes, to the given value |
| Store.SetRecording | app/store.ts:73 | only the recording flag changes, to the given value |
| Store.SetAvailableModels | app/store.ts:80 | only the model list changes, to the given list |
| Store.Merge | app/store.ts:75-78 | each key present in the patch takes the patch's value, each absent key keeps the old value |
| Store.UpdateSettings | app/store.ts:75-78 | only the settings change, to the merge of old settings and patch |
| Store.MergeNoKeys | app/store.ts:75-78 | an empty patch changes nothing |
| Store.MergeIdempotent | app/store.ts:75-78 | applying a patch twice is applying it once |
| Store.MergeThen | app/store.ts:75-78 | two successive updates equal one update with the combined patch, the later keys winning |
| Store.UpdateLastMessage | app/store.ts:82-95 | the text is appended to the last message when it is the assistant's; otherwise the conversation is unchanged; the count, earlier messages and other fields stay |
| Store.UpdateLastMessageTwice | app/store.ts:82-95 | appending `a` then `b` equals appending `a + b` |
| Store.UpdateLastMessagesIsOneUpdate | app/store.ts:82-95 | appending fragments one by one equals appending their concatenation once |
| Page.Project | app/page.tsx:33-36 | each stored message is sent as its role and content, in order |
| Page.OutboundHistory | app/page.tsx:32-38 | the relay receives the history as it was when the send began, followed by the new user turn |
| Page.ClientLine | app/page.tsx:71-84 | a `data: [DONE]` line stops the chunk; a `data: ` line whose payload parses with a truthy `content` appends it; everything else, malformed payloads included, is skipped |
| Page.ClientLines | app/page.tsx:70-85 | every fragment appended is non-empty |
| Page.ClientChunk | app/page.tsx:67-85 | a chunk contributes only non-empty fragments |
| Page.ClientStream | app/page.tsx:63-86 | the fragments the whole stream contributes are all non-empty |
| Page.SkippedLineIgnored | app/page.tsx:70-84 | a line the page skips (no `data: ` prefix, malformed payload, no truthy `content`) leaves the chunk's fragments unchanged, wherever it stands |
| Page.StopDropsRestOfChunk | app/page.tsx:73-75 | whatever follows a `[DONE]` line in the same chunk is ignored |
| Page.ClientStreamAppend | app/page.tsx:63-86 | chunks are decoded independently: a `[DONE]` in one chunk does not stop reading the next |
| Page.HandleSend | app/page.tsx:23-99 | one user message then one assistant message are appended, nothing earlier changes and loading ends off; the reply is the thrown message or fallback, `Error: ` plus the relay's error or `Failed to get response`, the concatenated stream fragments, the complete content, or the parse error |
| Page.Reply | app/page.tsx:43-96 | every path records exactly one assistant message, nothing else changes, and its text is fixed per path: the error text with its fallback, `Error: ` plus the relay's error or `Failed to get response`, the concatenated stream fragments, the complete content, or the parse error |
| Page.StreamedReply | app/page.tsx:53-86 | opening an empty assistant message and appending the fragments one by one leaves one new message holding their concatenation, and nothing else changed |
| SettingsPanel.Reconcile | app/components/Settings.tsx:23-28 | the list is recorded; the selected model is replaced by the first entry exactly when the list is non-empty and lacks it |
| SettingsPanel.ReconcileSelectsListedModel | app/components/Settings.tsx:25-27 | after a non-empty list the selected model is one of the listed ones |
| SettingsPanel.ReconcileIdempotent | app/components/Settings.tsx:23-28 | reconciling twice with one list is reconciling once |
| SettingsPanel.FetchModels | app/components/Settings.tsx:13-33 | loading ends off; the store is reconciled with the reply's `models` when present, and otherwise left unchanged, failures included |
| SettingsPanel.ChangeProvider | app/components/Settings.tsx:72-79 | the provider and its default base URL (`:11434` for Ollama, `:1234` otherwise) are set together, nothing else changes |
| SettingsPanel.ToggleStream | app/components/Settings.tsx:272-274 | the streaming flag flips and nothing else changes |
| SettingsPanel.ToggleStreamTwice | app/components/Settings.tsx:272-274 | toggling twice restores the state |
| ChatInput.Submit | app/components/ChatInput.tsx:73-82 | a message is sent exactly when the input is not blank and no reply is loading; it is the trimmed input and the box is cleared; otherwise the input is untouched |
| ChatInput.SentTextIsTrimmed | app/components/ChatInput.tsx:75-76 | a sent message is non-empty and neither starts nor ends with whitespace |
| ChatInput.KeyDown | app/components/ChatInput.tsx:84-89 | Enter without Shift submits; any other key leaves the input alone |
| ChatInput.FinalTextAppend | app/components/ChatInput.tsx:32-39 | the final text of two runs of results is that of the first followed by that of the second |
| ChatInput.OnResult | app/components/ChatInput.tsx:28-44 | the final transcripts from `resultIndex` on, each followed by a space, are appended to the input in order |
| ChatInput.InterimNeverReachesInput | app/components/ChatInput.tsx:32-39 | changing an interim result's transcript does not change the appended text |
| ChatInput.ToggleRecording | app/components/ChatInput.tsx:58-71 | without a recognizer nothing changes; with one the recording flag flips; nothing else changes |
| ChatInput.RecognitionStopped | app/components/ChatInput.tsx:46-53 | an error or end event turns recording off and changes nothing else |
| Text.Trim | app/api/chat/route.ts:97 | the trimmed string is empty exactly when the line is all whitespace, and otherwise neither starts nor ends with whitespace |
| Text.Lines | app/api/chat/route.ts:97 | splitting always gives at least one piece, and no piece holds a line feed |
| Text.JoinLinesOfLines | app/api/chat/route.ts:97 | splitting loses nothing: joining the pieces with line feeds rebuilds the chunk |
| Text.LinesOfJoinLines | app/api/chat/route.ts:97 | joining pieces without line feeds and splitting again gives the pieces back |
| Text.StartsWith | app/api/chat/route.ts:118 | `startsWith` holds exactly when the prefix fits and agrees character by character; the string is then the prefix followed by the rest |
| Text.NonBlankLines | app/api/chat/route.ts:97 | `split('\n').filter(trim)` yields only non-blank lines without line feeds |
| Text.KeepNonBlank | app/api/chat/route.ts:97 | the filter keeps only lines that are not all whitespace |
| Text.KeepNonBlankMembers | app/api/chat/route.ts:97 | a line survives the filter exactly when it is one of the input lines and is not all whitespace |
| Text.NonBlankLinesMembers | app/api/chat/route.ts:97 | the lines the relay keeps from a chunk are exactly the pieces of its split on line feeds that are not blank |
| Text.KeepNonBlankAppend | app/api/chat/route.ts:97 | the blank-line filter distributes over concatenation |
| Text.EventLines | app/api/chat/route.ts:104-108 | an event line followed by its blank line splits into that line alone |
| Wire.EventData | app/api/chat/route.ts:119 | `slice(6)` on a `data: ` line is the text after the prefix: prefix and payload rebuild the line |
| EndToEnd.FrameLineRead | app/page.tsx:70-84 | the page reads a relay frame's line back as the frame's fragment, or as the end of the chunk for Done |
| EndToEnd.FrameChunkLines | app/api/chat/route.ts:104-108 | a frame written as its own chunk has exactly one non-blank line, the frame's line |
| EndToEnd.FrameChunkRead | app/page.tsx:67-85 | a frame written as its own chunk decodes to the fragment it carries |
| EndToEnd.StreamRoundTrip | app/page.tsx:63-86 | the frames the relay writes, decoded by the page, give back exactly the fragments they carry, in order; Done frames neither add nor stop anything |
| EndToEnd.CoalescedStreamStopsAtDone | app/page.tsx:70-75 | if the frames arrive run together in one chunk, the page keeps only the fragments before the first Done |
| EndToEnd.CoalescedLines | app/page.tsx:67-68 | frames written back to back split into exactly their own lines |
| EndToEnd.CoalescedLinesRead | app/page.tsx:70-85 | reading the lines of back-to-back frames gives the fragments before the first Done |
| EndToEnd.StreamedReplyRebuildsContent | app/page.tsx:53-86 | for a streamed reply the assistant message is the concatenation of the fragments the relay extracted from the backend's stream |
| EndToEnd.BackendErrorShownToUser | app/page.tsx:43-50 | when the backend answers with an error status, the user reads `Error: API Error: ` followed by the backend's body |
| EndToEnd.UnreachableBackendShownToUser | app/api/chat/route.ts:172-177 | when the backend cannot be reached, the user reads `Error: ` with the failure's message, or `Failed to connect to AI service` |
| EndToEnd.CompletedReplyShown | app/page.tsx:87-90 | for a non-streamed reply the user reads the content the relay extracted |
| EndToEnd.CatalogReachesSettings | app/components/Settings.tsx:13-33 | against a reachable catalog the panel lists exactly the projected identifiers and reconciles the selected model with them |

## Left out

- Network, HTTP and the framework. Every `fetch` is a parameter. Request and
  response headers are not modelled (content types, `Cache-Control`,
  `Connection`), and neither is the edge-runtime setting.
- Reading the incoming request. The relay's `req.json()` runs before its
  `try` and is not modelled; the relay starts from the parsed messages and
  settings.
- Byte encoding. `TextEncoder`/`TextDecoder` are not modelled: chunks are
  strings, so a multi-byte character split across chunks is out of scope.
- Stream plumbing. The model leaves out a reader that fails mid-stream
  (`controller.error`), `releaseLock`/`close`, and a response without a
  body. That covers the relay's empty stream and the page's `No reader
  available` error. A thrown error's message is the `Malformed` message or
  the `Threw` message, whatever the runtime puts there.
- The internals of `JSON.parse`/`JSON.stringify`. They are parameters, and
  the round trips assume `Wire.Inverse`. Fields are seen through what the
  code reads. A present field with a non-string value, or a truthy
  non-string `content`, is not modelled.
- Catalog entries without `name` or `id`. The source maps them to
  `undefined`; here every entry has both.
- Page.HandleSend: a non-streamed reply without `content` is modelled as
  `""`. The source stores `undefined`, which the relay never sends (its
  reply always holds a string).
- Floating-point settings. Temperature, top-p and repeat penalty are `real`
  and only passed through; no arithmetic is done on them.
- Message ids and timestamps. They come from `Math.random`/`Date.now` and
  are a caller-supplied `Stamp`.
- Concurrency. Each handler is a function of the state it starts from; a
  store change made by another event while `handleSend` awaits is not
  modelled.
- UI glue. Rendering, scrolling, textarea sizing, `alert`, `console.error`,
  the effect that refetches models when the panel opens, and the
  recognizer's `start`/`stop` calls are left out; only the state changes
  are modelled. `ChatMessage.tsx` and `layout.tsx` are presentation only
  and are not part of this model.
- EndToEnd.StreamedReplyRebuildsContent: assumes the page reads exactly the
  chunks the relay enqueued, one frame per chunk. HTTP may re-chunk a
  stream. Chunks merged together are covered by
  `EndToEnd.CoalescedStreamStopsAtDone`. A frame split across two reads is
  not covered: the page splits each chunk on its own, neither half parses
  as JSON, and the fragment is lost.
- Text.Trim: the contract says when the result is empty and that its ends
  are not whitespace, but not that it is the exact infix of the input.
  That infix fact is stated on `TrimStart` and `TrimEnd`, which `Trim`
  composes.
