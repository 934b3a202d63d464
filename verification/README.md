# tray-bong, modelled in Dafny

tray-bong is a menu-bar chat assistant built on Electron. A tray menu lists
the user's system prompts. Picking one opens a prompt window that streams a
conversation with the configured provider: Anthropic, OpenAI, Google or a
local Ollama. Conversations, provider settings and prompts live as JSON
files, and a logger writes tagged lines to a rotated log file.

This project models the core of that system as pure Dafny functions and
proves what each part promises.

- **The streaming chat protocol.** The main-process generator
  (`AiMain.StreamChat`) yields chunks. The `ai:stream-chat` handler
  (`AiIpc`) posts each chunk as a frame on a dedicated message port and
  listens on the same port for the abort control message. The renderer
  bridge (`AiRenderer`) turns frames back into callbacks. The prompt
  window's transport (`PromptTransport`) feeds those callbacks into a
  readable stream. `StreamSession` composes the four and proves the
  end-to-end results:
  - a completed session delivers every chunk in order and closes the stream;
  - a failed session delivers the chunks sent before the error, then the error;
  - an abort stops the session after at most the pending chunk;
  - an abort before the request sends nothing.
- **The prompt window.** `PromptApp` models the system prompt, the shown
  messages, the edit state and the submit rule, and `ChatMessage` the
  message predicates. The earlier window is modelled in `LegacyPrompt` and
  `LegacyPreload`; its bridge forwards chunks in batches.
- **The stores.** These are the version gates, defaults and load fallbacks
  of `ConversationsStore`, `SettingsStore` and `PromptsStore`, together with
  the model catalogue (`Models`). Each gate has a round trip: whatever the
  store writes, it reads back unchanged.
- **The windows.** `ConversationList` covers relative dates and page-by-page
  loading. It proves that, over a bridge that reaches the conversations
  store, browsing shows exactly the valid conversation files, newest
  first. The window's bridge as written does not reach it (see Findings). `SettingsApp` and `SecureInput` cover the settings
  window and its masked API-key field; `LegacySettings` covers the older
  form. `TrayMenu` builds the tray menu.
- **The loggers.** `Logger`, `LegacyLogger` and their shared `LogSink` and
  `LocalTime` model the line format, which reads back into its parts, and the
  level filter. They also model the buffer that holds lines until `init`
  opens the stream, and the size-based rotation.

I/O is passed in as values. A file read, a stat, a rename or a provider
reply is a parameter carrying its outcome; a clock reading is an `Instant`
of ISO text and zone offset. Schema validators the project cannot see are
also oracle parameters.

Behaviour of the code worth knowing:

- An `AbortError` that the user did not request ends the generator
  silently. The handler then sends no terminal frame, so the window's
  stream stays open (`StreamSession.UnrequestedAbortErrorLeavesStreamOpen`).
- A frame posted on a port that is already closed is dropped, as the
  platform does.
- The renderer bridge keeps dispatching frames after it has finished. Only
  the closed port stops them, because dispatch does not consult the
  cleaned-up flag.
- The conversations window asks for the next page only after a full page
  of 20. One unreadable or invalid file among the files of a page shortens
  it, so paging ends early (`ConversationList.InvalidFileEndsPaging`). The
  offset of the next request counts the conversations shown, which matches
  the files read only while every file is valid.
- A rotation error makes the logger's `init` reject before the stream
  opens, so every line stays buffered (`LogSink.Init`).
- The settings service keeps a model list of its own, which it also hands
  to the renderer and from which it takes the default model. That list names `claude-opus-4-1` where the catalogue names
  `claude-opus-4-5`; both lists are modelled
  (`SettingsStore.CataloguesDifferOnlyInOpus`).

## Model

| member | source | states |
|---|---|---|
| Frames.ToRaw | src/services/ai/stream.ts:3-6 | a data frame is sent as an object carrying exactly its own key: `error` iff an error frame, `done` iff a done frame, `chunk` iff a chunk frame, with the payload unchanged |
| AiMain.OllamaBaseUrl | src/services/ai/main.ts:41-44 | a present, non-empty endpoint gets `/api` appended; a missing or empty one gives `http://localhost:11434/api`; either way the URL ends in `/api` |
| AiMain.OllamaDefaultsAgree | src/services/ai/main.ts:41-44 | the fallback URL is the default settings' endpoint plus `/api`, and an empty endpoint behaves like a missing one |
| AiMain.GetModel | src/services/ai/main.ts:24-49 | the chosen factory belongs to the configured provider, is applied to the configured model, and gets the stored API key (Ollama: the base URL instead) |
| AiMain.GetModelSeparatesProviders | src/services/ai/main.ts:27-48 | settings with different providers never select the same factory: the switch is one-to-one over the four kinds |
| AiMain.GenerateTextFromPrompt | src/services/ai/main.ts:57-76 | a successful generation returns the trimmed text (no leading or trailing whitespace) and logs no error; a failure logs `Error generating text: <message>` and rethrows the same error; a failure to resolve the model propagates unlogged |
| AiMain.PullStep | src/services/ai/main.ts:113-119 | a pulled chunk is yielded unchanged iff the signal is clear; an exhausted upstream returns, a throwing one raises its own error |
| AiMain.StreamChat | src/services/ai/main.ts:85-126 | the yielded chunks are a prefix of the upstream's, in upstream order; all of them when never aborted; exactly the `k` pulled before an abort raised at pull `k` (none when aborted before the first) |
| AiIpc.OnControl | src/services/ai/ipc.ts:28-34 | a control message with an `abort` key sets the abort flag and closes the port; any other message changes nothing; no frame is sent either way |
| AiIpc.Post | src/services/ai/ipc.ts:49 | a frame posted on an open port is appended to what was sent; on a closed port it is lost |
| AiIpc.Close | src/services/ai/ipc.ts:56 | closing keeps the abort flag and the frames sent |
| AiIpc.HandlerFrames | src/services/ai/ipc.ts:39-76 | chunk frames carry the upstream chunks in order, each at most once; only the last frame can be terminal; `done` appears iff never aborted and the upstream ended normally, after every chunk; an `error` frame appears iff the upstream failed with something other than an `AbortError`, with that failure's message; after an abort only the chunks pulled before it |
| AiIpc.RunHandler | src/services/ai/ipc.ts:20-78 | the handler run against an upstream and an abort timing sends exactly the frames described by `HandlerFrames`; it is aborted iff the abort arrived before the upstream ended; its port stays open only after a swallowed `AbortError` |
| AiIpc.PreAbortSendsNothing | src/services/ai/ipc.ts:40-59 | an abort raised before the first chunk arrives leaves the session with no frames at all |
| AiIpc.OneTerminalUnlessAborted | src/services/ai/ipc.ts:53-75 | `done` and `error` never both appear; a session neither aborted nor ended by an `AbortError` sends every chunk and then exactly one terminal frame |
| AiRenderer.Classify | src/services/ai/renderer.ts:38-54 | `error` beats `done`, which beats `chunk`; a chunk callback only when neither `error` nor `done` is present; no callback iff none of the three keys is present |
| AiRenderer.ClassifyInvertsToRaw | src/services/ai/renderer.ts:38-54 | a frame the backend sends is classified as the callback of that same frame, terminal exactly when the frame is |
| AiRenderer.FaultMessage | src/services/ai/renderer.ts:55-61 | an `Error` thrown by a callback is reported with its message, anything else as `Unknown error` |
| AiRenderer.Dispatch | src/services/ai/renderer.ts:34-62 | a frame on an open port fires exactly its classified callback; a terminal callback closes the port, a chunk leaves it open; a throwing callback adds one `onError` with the fault's message and closes the port; a closed port or a frame without a known key changes nothing |
| AiRenderer.Cancel | src/services/ai/renderer.ts:64-74 | the first call posts one `{abort: true}` (if the port is still open) and closes the port; later calls change nothing; no callback is made |
| AiRenderer.CancelIdempotent | src/services/ai/renderer.ts:64-69 | cancelling twice is the same as cancelling once |
| AiRenderer.NoCallbacksAfterCancel | src/services/ai/renderer.ts:70-73 | once cancelled, no arriving frame produces a callback |
| AiRenderer.StartedSane | src/services/ai/renderer.ts:28-32 | a fresh bridge satisfies the bridge invariant |
| AiRenderer.ApplyKeepsSane | src/services/ai/renderer.ts:34-74 | a frame or a cancel keeps the bridge invariant: at most one control message, an abort from the cleanup, and no callback after a terminal one |
| AiRenderer.RunKeepsSane | src/services/ai/renderer.ts:34-74 | over any sequence of frames and cancels, the bridge sends at most one control message and makes no callback after its port has closed |
| PromptTransport.Start | src/apps/prompt/App.tsx:86-119 | an already-aborted signal closes the stream at once and opens no bridge; otherwise nothing is enqueued yet, and the abort listener is registered iff a signal is present |
| PromptTransport.OnCallback | src/apps/prompt/App.tsx:96-111 | `onChunk` enqueues its chunk; `onDone` closes the stream; `onError` enqueues exactly one error chunk carrying the message, records it as `streamingError`, then closes |
| PromptTransport.OnAbort | src/apps/prompt/App.tsx:114-118 | a registered abort listener calls the bridge's cancel and then closes the stream; without a listener nothing happens |
| PromptTransport.Readable | src/apps/prompt/App.tsx:85-123 | the reader sees the chunks enqueued before the first close, and the stream is closed iff some close happened |
| PromptTransport.ReadableClosedStable | src/apps/prompt/App.tsx:99-118 | once the stream is closed, nothing done afterwards changes what its reader sees |
| PromptTransport.ReadableEnqueues | src/apps/prompt/App.tsx:96-98 | on an open stream, enqueued chunks reach the reader in the order they were enqueued |
| PromptTransport.FeedChunks | src/apps/prompt/App.tsx:96-98 | a run of chunk callbacks becomes the same run of enqueues, one for one, and leaves `streamingError` alone |
| PromptTransport.FeedAllAppend | src/apps/prompt/App.tsx:94-112 | feeding two runs of callbacks in turn is feeding their concatenation |
| StreamSession.DeliverClosed | src/services/ai/renderer.ts:34-62 | frames arriving after the bridge's port has closed change nothing |
| StreamSession.DeliverAppend | src/services/ai/renderer.ts:34-62 | delivering two runs of frames in turn is delivering their concatenation |
| StreamSession.DeliverChunks | src/services/ai/renderer.ts:52-54 | chunk frames on an open port become chunk callbacks one for one, in order, and leave the port open |
| StreamSession.CompletedSession | src/apps/prompt/App.tsx:94-112 | when the upstream runs out, the bridge reports every chunk and then `onDone`; the reader gets every chunk in order and a closed stream; no error is recorded and no abort is sent |
| StreamSession.FailedSession | src/apps/prompt/App.tsx:103-111 | when the upstream fails with anything but an `AbortError`, the reader gets every chunk, then one error chunk with the failure's message, and a closed stream; that message becomes `streamingError` |
| StreamSession.UnrequestedAbortErrorLeavesStreamOpen | src/services/ai/ipc.ts:62-65 | an `AbortError` nobody requested is swallowed without a terminal frame, so the bridge's port and the reader's stream both stay open |
| StreamSession.StopAfter | src/apps/prompt/App.tsx:114-118 | stopping after some chunks sends exactly one abort, keeps exactly those chunks for the reader, closes the stream, records no error, and drops every later frame |
| StreamSession.AbortedSession | src/services/ai/ipc.ts:44-59 | with the abort handled while pull `k` is pending and the user having seen `seen <= k` chunks, the reader keeps exactly the first `seen` upstream chunks, the stream closes and one abort goes out |
| StreamSession.PreAbortedRequest | src/apps/prompt/App.tsx:87-91 | an already-aborted request opens no bridge and gives the reader an empty, closed stream |
| ChatMessage.TextOfAppend | src/apps/prompt/Message.tsx:25-28 | the text of concatenated parts is the concatenation of their texts, so the text parts' texts are joined in order |
| ChatMessage.TextOfSingle | src/apps/prompt/Message.tsx:25-28 | a single text part contributes its text; any other part contributes nothing |
| ChatMessage.IndicatorCases | src/apps/prompt/Message.tsx:30-36 | the indicator never shows on a user, system or non-last message, nor when the status is ready or error; on the last assistant message it shows while submitted, and while streaming exactly when some text part is empty |
| ChatMessage.CompletionCases | src/apps/prompt/Message.tsx:42-44 | blank text is never complete; a message that is not the last is complete iff its text is not blank; a complete message never shows the indicator |
| ChatMessage.IconRequest | src/apps/prompt/Message.tsx:46-72 | a symbol is requested iff the message is complete and not a system message: the copy symbol iff it is an assistant message, the edit symbol iff it is a user message |
| ChatMessage.ControlVisibility | src/apps/prompt/Message.tsx:119-141 | the copy control shows iff the message is a complete assistant message whose symbol has loaded; the edit control iff a complete user message, not being edited, whose symbol has loaded; never both |
| PromptApp.GetSystemPrompt | src/apps/prompt/App.tsx:23-32 | without a system message the prompt is the empty string |
| PromptApp.SystemPromptIsFirst | src/apps/prompt/App.tsx:23-32 | the prompt is the displayed text of the first system message, whatever follows it |
| PromptApp.VisibleMessages | src/apps/prompt/App.tsx:144-146 | no shown message is a system message, and nothing is added |
| PromptApp.VisibleMembership | src/apps/prompt/App.tsx:144-146 | a message is shown iff it is in the conversation and is not a system message |
| PromptApp.VisibleAppend | src/apps/prompt/App.tsx:144-146 | filtering keeps order: the shown messages of a concatenation are the concatenation of the shown messages |
| PromptApp.VisibleWithoutSystem | src/apps/prompt/App.tsx:144-146 | a conversation without system messages is shown unchanged |
| PromptApp.IndexOfId | src/apps/prompt/App.tsx:152 | the result is -1 or the index of a message with that id, and no earlier message (none at all for -1) has it |
| PromptApp.EditingMessageIndex | src/apps/prompt/App.tsx:148-153 | -1 exactly when no edit is active or no shown message has the edited id; otherwise a shown position holding the edited id, with no earlier shown message holding it |
| PromptApp.HandleEdit | src/apps/prompt/App.tsx:155-157 | the edit starts on the payload's message and the input takes the payload's text; nothing else changes |
| PromptApp.HandleCancelEdit | src/apps/prompt/App.tsx:168-172 | the edit ends and the input is emptied; nothing else changes |
| PromptApp.EditThenCancel | src/apps/prompt/App.tsx:155-172 | starting an edit and cancelling it leaves no edit and an empty input, and the rest of the window as it was |
| PromptApp.EditThenSubmitKeepsText | src/apps/prompt/Message.tsx:90-92 | the text the edit control hands to `onEdit`, submitted unchanged, is written back trimmed as the message's only text part, with its id and role kept and every other message untouched; a blank text submits nothing |
| PromptApp.SubmitEditWritesBack | src/apps/prompt/App.tsx:298-306 | submitting an edit of a shown message, the first with its id, gives it the text as its only part, keeps its id and role, and leaves every other message as it was |
| PromptApp.EphemeralWithoutEditedMessage | src/apps/prompt/App.tsx:240-241 | nothing is dimmed without an edit; an edit whose message is not shown dims every message |
| PromptApp.EphemeralAfterEdited | src/apps/prompt/App.tsx:148-153 | with the edited message shown at index `j`, a message is dimmed iff its shown index is greater than `j` |
| PromptApp.PlaceholderPulses | src/apps/prompt/App.tsx:262-279 | whenever the placeholder shows, it is an assistant message showing the activity indicator and is never complete |
| PromptApp.RenderedMessages | src/apps/prompt/App.tsx:262-279 | the rendered list is the shown messages, followed by the placeholder exactly while a request is submitted and the last shown message is the user's; the earlier window (src/prompt/App.tsx:261-277) renders alike |
| PromptApp.SubmittedLastMessagePulses | src/apps/prompt/App.tsx:262-279 | while a request is submitted, the last rendered message is an assistant message showing the activity indicator: the reply if one is shown, else the placeholder |
| PromptApp.ReplaceMessageText | src/apps/prompt/App.tsx:298-306 | the list keeps its length, ids, roles and order; only the first message with the edited id changes, to a single text part holding the new text |
| PromptApp.FirstAssistant | src/apps/prompt/App.tsx:308-310 | no result iff no message is an assistant message; a result is the id of some assistant message |
| PromptApp.FirstAssistantAt | src/apps/prompt/App.tsx:308-310 | when the assistant message at `i` has no assistant before it, its id is the result |
| PromptApp.RegenerateAnchor | src/apps/prompt/App.tsx:308-314 | corrected anchor: none iff no assistant message follows the edited one among the shown messages; otherwise the id of the first that does |
| PromptApp.RegenerateAnchorAsWritten | src/apps/prompt/App.tsx:308-310 | as written: none iff no assistant message sits after position `visibleIndex` of the FULL list; otherwise an assistant message at such a position |
| PromptApp.AnchorAsWrittenIgnoresText | src/apps/prompt/App.tsx:298-310 | slicing the updated list instead of the old one finds the same anchor, since rewriting a message's text keeps every id and role |
| PromptApp.AnchorAgreesWithoutSystem | src/apps/prompt/App.tsx:308-310 | without system messages the code's slice finds the intended anchor |
| PromptApp.AnchorAgreesWithLeadingSystem | src/apps/prompt/App.tsx:308-310 | with one leading system message and a user message being edited, the code's slice still finds the intended anchor |
| PromptApp.AnchorAsWrittenMissesWithTwoSystemMessages | src/apps/prompt/App.tsx:308-310 | with two leading system messages, editing the second user message anchors `regenerate` at the first reply instead of the second |
| PromptApp.SubmitEdit | src/apps/prompt/App.tsx:296-318 | with the corrected anchor of the Findings table: the input, the edit and the error are cleared; an edited message that is not shown changes nothing else; one that is shown gets the text as its only part, the list is set, and `regenerate` is called with the first assistant after it, only if there is one; nothing is sent and no title is asked for |
| PromptApp.SubmitEditAsWritten | src/apps/prompt/App.tsx:296-318 | as written: the same state as `SubmitEdit`; the list is set and `regenerate` is called with the anchor found by slicing the full list at the shown index, if any; an edited message that is not shown requests nothing |
| PromptApp.SubmitEditAsWrittenAgrees | src/apps/prompt/App.tsx:296-318 | with at most one system message, in front, and a user message being edited, the submit as written does exactly what the corrected one does |
| PromptApp.SubmitNew | src/apps/prompt/App.tsx:319-340 | the text is always sent, last; a title is asked for, first, iff no message is shown and the system prompt is not blank; a successful title becomes the window's title with nothing between the request and the send; a failed one leaves the title and logs exactly one "Failed to generate title: " line with the error's message before the send; input and error are cleared |
| PromptApp.HandleSubmit | src/apps/prompt/App.tsx:290-342 | one submit run to completion, with the corrected anchor (the wait for a title is split out in `PromptApp.PressAsWritten`): while streaming only `stop` is requested; blank input does nothing; any other submit clears input, edit and error; a message is sent iff no edit is active; a title is asked for only alongside a send on an empty conversation with a non-blank system prompt |
| PromptApp.TitleOutcomeUnread | src/apps/prompt/App.tsx:320-339 | a submit that does not wait for a title gives the same result whatever the title request would have yielded |
| PromptApp.Settle | src/apps/prompt/App.tsx:326-337 | after the title request settles: on success the title becomes the result and the text is the only effect, sent; on failure the title is kept, one "Failed to generate title: " line with the error's message is logged, and then the text is still sent |
| PromptApp.PressAsWritten | src/apps/prompt/App.tsx:320-338 | as written: a submit that waits for a title asks for it and suspends with the state untouched, the input still holding the text; any other press runs `HandleSubmit`, which regenerates from the corrected anchor of an edit rather than the as-written one of `PromptApp.SubmitEditAsWritten` |
| PromptApp.ResumeAsWritten | src/apps/prompt/App.tsx:326-339 | as written: when a waiting submit's title settles, its text is sent last, the submit leaves the waiting list, and the input and error are cleared whatever the input holds |
| PromptApp.Press | src/apps/prompt/App.tsx:320-338 | corrected: a submit that waits for a title empties the input when it starts; any other press is `HandleSubmit` |
| PromptApp.Resume | src/apps/prompt/App.tsx:326-339 | corrected: when a waiting submit's title settles, its text is sent last and leaves the waiting list, and the input keeps whatever was typed meanwhile |
| PromptApp.PressThenResumeAsWritten | src/apps/prompt/App.tsx:320-339 | as written, one press whose title then settles ends in the state and effects of the single-step `SubmitNew` |
| PromptApp.PressThenResume | src/apps/prompt/App.tsx:320-339 | corrected, one press whose title then settles ends in the state and effects of the single-step `SubmitNew` |
| PromptApp.DoublePressAsWrittenSendsTwice | src/apps/prompt/App.tsx:421-456 | as written, a second Enter before the title arrives asks for a second title, and both submits send the same text |
| PromptApp.DoublePressSendsOnce | src/apps/prompt/App.tsx:320-338 | corrected, a second press while the title is pending does nothing, and the text is sent exactly once |
| LegacyPreload.ChunkCountStep | src/prompt/preload.ts:55-61 | appending a callback adds one to the count of chunk callbacks iff it is a chunk callback |
| LegacyPreload.ForwardBatch | src/prompt/preload.ts:53-69 | without a throwing callback every chunk of the batch is counted and forwarded once, in array order, and the port stays open; if the callback for chunk `n` throws, the chunks up to it are forwarded, the fault is reported once through `onError` and the port closes; `enqueuedCount` grows by exactly the chunks forwarded |
| LegacyPreload.EnqueueUntilFault | src/prompt/preload.ts:55-61 | the batch loop forwards chunks in array order, counting each, and stops right after the chunk whose callback throws; with no fault it forwards them all and the port stays open |
| LegacyPreload.Finish | src/prompt/preload.ts:39-51 | the `error` and `done` branches make their callback, report a throw from it, close the port and leave the count alone |
| LegacyPreload.DispatchBatch | src/prompt/preload.ts:35-70 | `error` beats `done`, which beats `chunks`; a closed port or a frame with none of the keys changes nothing; `enqueuedCount` always grows by the number of chunk callbacks made |
| LegacyPreload.FinishKeepsCount | src/prompt/preload.ts:34 | a terminal frame does not change the number of chunks forwarded |
| LegacyPreload.LegacyOnAbortAsWritten | src/prompt/App.tsx:193-197 | as written, an abort throws a TypeError at the call of the bridge's missing return value, before the stream is closed, and leaves the bridge untouched |
| LegacyPreload.LegacyCancel | src/prompt/preload.ts:28-32 | corrected bridge: its cancel function closes the port and keeps the callbacks and the count |
| LegacyPreload.LegacyOnAbort | src/prompt/App.tsx:193-197 | corrected abort listener: it cancels the bridge and closes the stream, like the later transport |
| LegacyPreload.AbortAsWrittenLeavesStreamOpen | src/prompt/App.tsx:193-197 | as written an abort leaves the reader's stream and the bridge's port open and throws; with a cancel function both end up closed |
| LegacyPrompt.CompleteIsAssistantCompletion | src/prompt/App.tsx:59-62 | the earlier completion test is the later one restricted to assistant messages; a user message is never complete; a complete message never shows the activity indicator |
| LegacyPrompt.CopyIconRequest | src/prompt/App.tsx:64-81 | the copy symbol is requested iff the message is complete |
| LegacyPrompt.InitialMessages | src/prompt/App.tsx:226-235 | a system message with id `system` is seeded iff the prompt text is not blank; it is the only message and its system prompt reads back as the prompt text |
| LegacyPrompt.LegacySubmit | src/prompt/App.tsx:282-311 | while streaming only `stop`; blank input does nothing; otherwise the trimmed input is sent first, and title generation, always second, happens iff no message is shown and the system prompt is not blank; an error line is logged, third, exactly when that generation fails |
| LegacyPrompt.SendText | src/prompt/App.tsx:288-307 | the message goes first; title generation with the system prompt and the message follows iff asked for, always in second place; a "Failed to generate title: " line with the error's message is logged, third, iff the title was asked for and failed |
| Json.VersionOf | src/services/conversations/main.ts:73-74 | a non-zero version is a number stored under `version` in an object; anything else reads as 0 |
| Json.StringField | src/services/conversations/main.ts:44-51 | a string field is present iff the key holds a JSON string, and its value is that string |
| Json.NumberField | src/services/conversations/main.ts:44-51 | a number field is present iff the key holds a JSON number, and its value is that number |
| Sorting.LeReflexive | src/services/conversations/main.ts:144 | every name sorts at or before itself |
| Sorting.LeTotal | src/services/conversations/main.ts:144 | any two names are comparable |
| Sorting.LeTransitive | src/services/conversations/main.ts:144 | the default sort order is transitive |
| Sorting.LeAntisymmetric | src/services/conversations/main.ts:144 | names that sort at or before each other are equal |
| Sorting.Insert | src/services/conversations/main.ts:144 | inserting into an ascending list gives an ascending list holding the same names plus the new one |
| Sorting.SortAscending | src/services/conversations/main.ts:144 | `sort()` gives an ascending permutation of its input |
| Sorting.Reverse | src/services/conversations/main.ts:144 | `reverse()` keeps the length and puts element `i` at `n - 1 - i` |
| Sorting.ReversePermutes | src/services/conversations/main.ts:144 | reversing keeps every element and its multiplicity |
| Sorting.SortDescending | src/services/conversations/main.ts:144 | `sort().reverse()` gives a descending permutation of its input |
| Sorting.AscendingUnique | src/services/conversations/main.ts:144 | two ascending permutations of the same names are equal, so the sorted order is unique |
| ConversationsStore.ParseMessages | src/services/conversations/main.ts:13-35 | messages parse iff they are an array of objects that the library's validation accepts, and then they are kept unchanged |
| ConversationsStore.ParseConversation | src/services/conversations/main.ts:44-51 | a parsed conversation comes from an object whose `id` is that string, and its messages pass the library's validation |
| ConversationsStore.ParseConversationFile | src/services/conversations/main.ts:54-57 | a parsed file always has version 1 |
| ConversationsStore.MigrationOutcome | src/services/conversations/main.ts:68-89 | a value that is not an object (or is null) is rejected as an invalid format; a missing or non-numeric version as missing; a version above 1 as unsupported, carrying that version; an accepted file has version 1 |
| ConversationsStore.SaveConversation | src/services/conversations/main.ts:99-105 | the saved record has version 1 and the conversation with every field unchanged except `updatedAt`, which becomes the time of the save |
| ConversationsStore.SaveThenMigrate | src/services/conversations/main.ts:91-108 | a saved conversation whose messages are objects the library accepts reads back as the record saved |
| ConversationsStore.FilePath | src/services/conversations/main.ts:64-66 | the file is `<id>.json` inside the conversations directory, so its name ends in `.json` |
| ConversationsStore.JsonFiles | src/services/conversations/main.ts:141 | exactly the directory's names that end in `.json` are kept |
| ConversationsStore.Slice | src/services/conversations/main.ts:148 | the slice holds at most `end - start` elements, taken in order from `[start, end)` clamped to the list, and is empty when `start` is past the end |
| ConversationsStore.CollectValid | src/services/conversations/main.ts:148-173 | reading a page never yields more entries than files |
| ConversationsStore.CollectValidAll | src/services/conversations/main.ts:148-173 | when every file is valid, each file gives its own entry at its own position and nothing is lost |
| ConversationsStore.CollectValidSkips | src/services/conversations/main.ts:160-171 | an invalid file is skipped and not replaced: the page comes back shorter than its files |
| ConversationsStore.ListConversations | src/services/conversations/main.ts:132-183 | a missing directory gives an empty list; any other directory error propagates; otherwise at most `limit` entries, read from the window of sorted `.json` names |
| ConversationsStore.SliceMembers | src/services/conversations/main.ts:148 | a slice holds only elements of its list |
| ConversationsStore.SliceDescending | src/services/conversations/main.ts:144-148 | a slice of a descending list is descending |
| ConversationsStore.Window | src/services/conversations/main.ts:140-148 | a page's window has at most `limit` names, each a `.json` name of the directory |
| ConversationsStore.WindowMembers | src/services/conversations/main.ts:140-148 | every name in the window is a `.json` name from the directory |
| ConversationsStore.WindowDescending | src/services/conversations/main.ts:143-148 | a page's names come newest (largest) first |
| ConversationsStore.WindowsTile | src/services/conversations/main.ts:148 | two consecutive pages of size `limit` are the one page of size `2 * limit` at the same offset |
| ConversationsStore.SlicesTile | src/services/conversations/main.ts:148 | adjacent slices within the list concatenate to the slice that spans both |
| ConversationList.NestedFloor | src/apps/conversations/App.tsx:10-13 | flooring seconds, minutes, hours and days in turn is flooring the difference once by the whole unit |
| ConversationList.FormatDate | src/apps/conversations/App.tsx:6-25 | under a minute, including a future timestamp, gives `Just now`; otherwise the difference in whole days if at least one, else whole hours if at least one, else whole minutes |
| ConversationList.DateUnits | src/apps/conversations/App.tsx:10-13 | the nested floors give the whole minutes, hours and days of the difference, and each is positive exactly when at least that unit has passed |
| ConversationList.FormatDateAsWritten | src/apps/conversations/App.tsx:6-8 | as written: a `Date` is worded as `FormatDate` words its time, and a plain number makes the call fail |
| ConversationList.ListedDateThrows | src/apps/conversations/App.tsx:124 | as written, rendering the date of any listed conversation fails, since its `updatedAt` is a number |
| ConversationList.DateValue | src/apps/conversations/App.tsx:6-8 | a number made a `Date` keeps its value truncated toward zero, or holds no time outside the range a `Date` can hold |
| ConversationList.FormatUpdatedAt | src/apps/conversations/App.tsx:120-125 | corrected: a stored time in whole milliseconds is worded exactly as `formatDate` words that `Date`; a time out of range reads `Just now` |
| ConversationList.PluralIffNotOne | src/apps/conversations/App.tsx:16-22 | the unit carries the plural `s` iff the count is not 1 |
| ConversationList.UnitsTakePlural | src/apps/conversations/App.tsx:15-23 | days, hours and minutes each take the plural `s` iff the count is not 1 |
| ConversationList.Mounted | src/apps/conversations/App.tsx:36-42 | the window starts loading, with no conversations, offset 0 and no "Show more" |
| ConversationList.InitialLoaded | src/apps/conversations/App.tsx:44-55 | the first page becomes the list, `hasMore` holds iff it has exactly 20 entries, the offset is its length; a failed request only ends loading |
| ConversationList.MoreLoaded | src/apps/conversations/App.tsx:60-70 | the next page is appended after the loaded list, in order; `hasMore` holds iff it has exactly 20 entries; the offset stays the number of entries loaded; a failed request only ends loading more |
| ConversationList.Browse | src/apps/conversations/App.tsx:44-70 | after the first page and any number of clicks the offset equals the number of conversations loaded |
| ConversationList.CollectValidIsCollect | src/services/conversations/main.ts:148-173 | the store reads a list of files as each file in turn contributing its own entry when it reads and migrates, nothing otherwise |
| ConversationList.KeepValidAtMostOne | src/services/conversations/main.ts:160-171 | each file contributes at most one entry |
| ConversationList.CollectAppend | src/services/conversations/main.ts:148-173 | reading two runs of files in turn is reading their concatenation |
| ConversationList.CollectShort | src/services/conversations/main.ts:148-173 | with at most one entry per file, a run of files never yields more entries than files |
| ConversationList.NoneSkippedSplit | src/services/conversations/main.ts:160-171 | when reading a run of files skips none, reading either part skips none |
| ConversationList.PageContinues | src/services/conversations/main.ts:148-173 | when nothing is skipped, the page read at `start` holds the next twenty files (or the rest), and appending it to the entries before `start` gives the entries of the longer prefix |
| ConversationList.LoadedPageShowsPrefix | src/apps/conversations/App.tsx:60-70 | when nothing is skipped, one "Show more" extends the shown prefix of the listing by the next twenty files (or the rest) |
| ConversationList.NextPageShowsPrefix | src/apps/conversations/App.tsx:60-70 | with the window showing `20 * k` files and the store serving the next slice, one more click shows `20 * (k + 1)` files (or all of them) |
| ConversationList.FirstPageShowsPrefix | src/apps/conversations/App.tsx:44-55 | the first page shows the newest twenty files (or all of them) |
| ConversationList.BrowsingShowsEveryValidFile | src/apps/conversations/App.tsx:44-70 | when nothing is skipped, after `k` clicks the window shows the newest `20 * (k + 1)` files (or all of them) in listing order, and "Show more" disappears only once every file is shown |
| ConversationList.ListingServesSlices | src/services/conversations/main.ts:140-175 | the store serves, at every offset, the entries of the clamped slice of its sorted `.json` names |
| ConversationList.BrowsingListsEveryConversation | src/apps/conversations/App.tsx:44-70 | corrected (a bridge that reaches the store; see Findings), with every file valid: the window shows the entries of a prefix of the newest-first listing, and once "Show more" disappears it shows every conversation |
| ConversationList.RejectedFirstLoadShowsNothing | src/apps/conversations/App.tsx:44-58 | a first load that rejects leaves the window empty, not loading and without "Show more", after any number of renders |
| ConversationList.InvalidFileEndsPaging | src/apps/conversations/App.tsx:50 | one invalid file among the newest twenty makes the first page short, so "Show more" never appears although older files remain |
| SettingsStore.CataloguesDifferOnlyInOpus | src/services/settings/main.ts:18-38 | the main process's catalogue equals the renderer's for every provider except Anthropic, where only the second entry differs (`claude-opus-4-1` against `claude-opus-4-5`); the Ollama list is empty |
| SettingsStore.EncryptApiKey | src/services/settings/main.ts:70-76 | without encryption the key is stored as is; with it, the secret store's encryption of the key |
| SettingsStore.DecryptApiKey | src/services/settings/main.ts:78-91 | without encryption the stored string is returned as is; a failed decryption also returns it unchanged; otherwise the decrypted key |
| SettingsStore.ApiKeyRoundTrip | src/services/settings/main.ts:70-91 | a key comes back from encryption and decryption unchanged whenever the secret store round-trips it, and always without encryption |
| SettingsStore.DefaultSettings | src/services/settings/main.ts:60-68 | version 1, provider `anthropic`, model `claude-sonnet-4-5` (the first Anthropic model), an encrypted empty key and endpoint `http://localhost:11434` |
| SettingsStore.ParseSettingsFile | src/services/settings/main.ts:40-46 | a parsed record comes from an object holding that numeric version, that model, that key and that provider's name |
| SettingsStore.MigrateSettings | src/services/settings/main.ts:93-111 | non-objects are rejected as an invalid format; a version above 1 is rejected as unsupported, iff present and above 1; an accepted record is the schema's parse with a version of at most 1, so a missing version passes the gate but fails the schema |
| SettingsStore.SettingsFileRoundTrip | src/services/settings/main.ts:93-111 | every record at or below version 1, written as JSON, is read back unchanged |
| SettingsStore.LoadSettings | src/services/settings/main.ts:113-140 | a valid file gives its settings with the key decrypted and writes nothing; any failure rewrites the default file and returns provider `anthropic`, model `claude-sonnet-4-5`, the default endpoint and the decrypted empty key, unless that write fails, when the call rejects |
| SettingsStore.SaveSettings | src/services/settings/main.ts:142-153 | the record has version 1, the provider, model and endpoint unchanged, and the key encrypted |
| SettingsStore.SaveThenLoad | src/services/settings/main.ts:113-153 | loading what was saved returns the saved settings, when the secret store round-trips the key |
| Models.ParseProvider | src/services/settings/models.ts:3-5 | a string read as a provider is that provider's own name |
| Models.ProviderNameRoundTrip | src/services/settings/models.ts:3-5 | every provider's name reads back as that provider |
| Models.ProvidersComplete | src/services/settings/models.ts:3 | `Providers` lists four kinds, each kind exactly once |
| Models.DisplayNamesTotal | src/services/settings/models.ts:39-54 | every declared model id of Anthropic, OpenAI and Google has a display name |
| Models.BuildModels | src/services/settings/models.ts:57-62 | one entry per id, same length and order, each keeping its id and taking its display name from the table |
| Models.ModelsFor | src/services/settings/models.ts:65-70 | only the Ollama list is empty; each other provider lists exactly its declared ids, in order |
| PromptsStore.DefaultPrompts | src/services/prompts/main.ts:25-44 | the default file has version 1 and exactly three prompts, labelled Code Review, Debug Help and Explain Code, in that order |
| PromptsStore.ParsePrompt | src/services/prompts/main.ts:9-12 | a parsed prompt comes from an object whose `label` and `prompt` are those strings |
| PromptsStore.ParsePrompts | src/services/prompts/main.ts:15-18 | either every element parses, and the prompts are those elements in order, or some element does not and nothing is returned |
| PromptsStore.ParsePromptsFile | src/services/prompts/main.ts:15-18 | a parsed file comes from an object whose `version` is that number |
| PromptsStore.MigratePrompts | src/services/prompts/main.ts:46-64 | non-objects are rejected as an invalid format; a version above 1 is rejected as unsupported, iff present and above 1; an accepted file has version at most 1 and its prompts are the file's entries, one for one, in file order |
| PromptsStore.PromptsFileRoundTrip | src/services/prompts/main.ts:46-64 | every file at or below version 1, written as JSON, is read back unchanged |
| PromptsStore.LoadPrompts | src/services/prompts/main.ts:66-81 | a valid file gives its prompts in file order and writes nothing; any failure writes the default file and returns the three defaults, unless that write fails, when the call rejects |
| PromptsStore.DefaultsReload | src/services/prompts/main.ts:74-80 | once the defaults are written, the next load reads them back without rewriting |
| SecureInput.MaskApiKey | src/apps/settings/SecureInput.tsx:3-10 | a key of at most 8 characters shows as three stars only; a longer one shows 11 characters: its first four, three stars, its last four |
| SecureInput.MaskDependsOnlyOnEnds | src/apps/settings/SecureInput.tsx:3-10 | two short keys mask alike; two long keys mask alike exactly when they share their first four and last four characters |
| SecureInput.Effect | src/apps/settings/SecureInput.tsx:42-47 | the `[saved, value]` effect re-runs when either changed and, while the parent shows "saved", schedules exactly one reset; it changes nothing else |
| SecureInput.Mount | src/apps/settings/SecureInput.tsx:39-47 | a mounted field is unedited and remembers the value it was given; mounted while "saved" is shown, it has one reset scheduled |
| SecureInput.Focus | src/apps/settings/SecureInput.tsx:42-54 | focusing an unedited field remembers its key and clears it, scheduling a reset if a non-empty key is cleared while "saved" is shown; an edited field is untouched |
| SecureInput.Blur | src/apps/settings/SecureInput.tsx:42-60 | leaving an unedited field puts the remembered key back, scheduling a reset if that changes the key while "saved" is shown; an edited field keeps its text |
| SecureInput.Change | src/apps/settings/SecureInput.tsx:42-65 | typing marks the field edited and hands the typed text to the parent; a keystroke that changes the key while "saved" is shown schedules a reset |
| SecureInput.SavedRaised | src/apps/settings/SecureInput.tsx:42-47 | the parent raising its flag schedules one reset; raising a flag that is already up schedules none; the key and edit state are kept |
| SecureInput.SavedLowered | src/apps/settings/SecureInput.tsx:42-47 | the parent lowering its flag schedules nothing and changes nothing else |
| SecureInput.ResetFires | src/apps/settings/SecureInput.tsx:45 | a scheduled reset clears the edited flag, uses up one pending reset and keeps the key |
| SecureInput.Display | src/apps/settings/SecureInput.tsx:67-70 | an edited or empty field shows its value in clear; otherwise the mask of its value |
| SecureInput.FocusThenBlurRestores | src/apps/settings/SecureInput.tsx:49-60 | on an unedited field, focus shows an empty box and leaving without typing restores the key and its masked display |
| SecureInput.TypedValueSurvivesBlur | src/apps/settings/SecureInput.tsx:56-65 | after typing, leaving the field keeps the typed text and shows it in clear |
| SecureInput.SavedMasksAgain | src/apps/settings/SecureInput.tsx:42-47 | a save made while the flag is down schedules a reset, after which a non-empty key is shown masked again |
| SecureInput.KeystrokeWhileSavedIsMasked | src/apps/settings/SecureInput.tsx:42-70 | a keystroke that changes the key within the two seconds after a save shows in clear only until its scheduled reset fires; then the typed key is masked and the next keystroke edits the mask |
| SecureInput.KeystrokeWhileNotSavedStays | src/apps/settings/SecureInput.tsx:42-70 | while the flag is down, typing schedules no reset and shows the typed text |
| SecureInput.EditedIffTypedSinceReset | src/apps/settings/SecureInput.tsx:39-70 | over any history of focus, blur, typing, the parent's flag going up and down, and resets firing, from mount, the field is edited exactly when a keystroke followed the last reset; otherwise a non-empty key is shown masked |
| SecureInput.NoSaveNoReset | src/apps/settings/SecureInput.tsx:42-47 | a field mounted with the flag down, whose parent never raises it, never has a reset scheduled |
| SettingsApp.Apply | src/apps/settings/App.tsx:43-54 | before the settings load, an update does nothing; afterwards it changes only the field it edits (the provider, or one provider's options) to the value given, and keeps every other field and the version |
| SettingsApp.EditsCommute | src/apps/settings/App.tsx:106-162 | edits of different fields commute, and repeating an edit changes nothing more |
| SettingsApp.SwitchingBackRestores | src/apps/settings/App.tsx:43-54 | switching provider and back gives the original settings, every provider's options intact |
| SettingsApp.HandleSave | src/apps/settings/App.tsx:31-41 | before load a save writes nothing and changes nothing; afterwards it writes exactly the current settings, and raises the saved flag only if the write resolves; a rejected write leaves the window as it was |
| SettingsApp.SavedTimerFires | src/apps/settings/App.tsx:38-40 | the timer after a save lowers the flag and keeps the settings |
| SettingsApp.TypedKeyIsSavedAndMasked | src/apps/settings/App.tsx:31-145 | a key typed into a provider's panel outside a saved window shows in clear, is written to that provider by the save, and is shown masked once the reset the raised flag schedules has fired |
| SettingsApp.RejectedSaveKeepsTypedKey | src/apps/settings/App.tsx:31-41 | when the write rejects, the flag stays down and no reset is scheduled, so the typed key stays in clear and a second save writes it |
| SettingsApp.WithKey | src/apps/settings/App.tsx:106-145 | a panel that reports a new key edits the same field as before |
| LegacySettings.Initial | src/settings/App.tsx:30-40 | the form starts on Anthropic with no model, no key, the key field neither edited nor focused, and the local Ollama endpoint |
| LegacySettings.ApplyLoaded | src/settings/App.tsx:42-54 | a load copies the fetched provider, model and key (which becomes the original key), resets the key field, falls back to the local endpoint when none is stored, and keeps the fetched model list |
| LegacySettings.ProviderChanged | src/settings/App.tsx:59-73 | a provider change installs the new list and selects its first model, or no model when the list is empty, changing nothing else |
| LegacySettings.SelectProvider | src/settings/App.tsx:59-73 | choosing the current provider changes nothing; choosing another installs its list and its first model (or none) |
| LegacySettings.LoadAsWritten | src/settings/App.tsx:42-73 | as the effects are wired: when the fetched provider differs from the form's, the provider effect runs after the load and replaces the loaded model |
| LegacySettings.Load | src/settings/App.tsx:42-57 | the intended load keeps the fetched provider, model and original key |
| LegacySettings.FocusKey | src/settings/App.tsx:95-100 | focus clears the key field and forgets typing, keeping the original key |
| LegacySettings.BlurKey | src/settings/App.tsx:102-110 | leaving the field without typing restores the original key; typed text stays |
| LegacySettings.TypeKey | src/settings/App.tsx:112-121 | typing marks the key edited and holds the typed text, keeping the original key |
| LegacySettings.DisplayKey | src/settings/App.tsx:215-219 | the field shows the raw text while focused or edited, otherwise the masked original key |
| LegacySettings.HandleSave | src/settings/App.tsx:75-93 | the save sends the provider, the model, the typed key only if the user typed (else the original), and an endpoint exactly for Ollama; once the write resolves the sent key is the original key and the field is reset; a rejected write changes nothing in the form |
| LegacySettings.FocusBlurKeepsKey | src/settings/App.tsx:95-110 | focusing and leaving the key field without typing saves the original key, not the cleared field, and shows it masked |
| LegacySettings.TypedKeyIsSaved | src/settings/App.tsx:75-121 | a key typed after focus is what the save sends, and is then shown masked |
| LegacySettings.RejectedSaveKeepsTyping | src/settings/App.tsx:75-121 | after a rejected save the key still counts as typed, the original key is kept and the typed text is shown, so a retry sends the typed key |
| LegacySettings.LoadThenSave | src/settings/App.tsx:42-93 | loading and saving straight away writes back the provider, model and key; the endpoint only for Ollama, defaulted when missing |
| LegacySettings.LoadAsWrittenClearsOllamaModel | src/settings/App.tsx:42-73 | as written, a stored Ollama model is cleared on load (and the next save would write the empty model); the intended load keeps it |
| LegacySettings.LoadAsWrittenResetsModel | src/settings/App.tsx:42-73 | as written, every stored model of a provider other than Anthropic is replaced by its provider's first listed model |
| TrayMenu.MenuItems | src/tray.ts:17-36 | one item per prompt in prompt order, labelled with the prompt's label; a separator exactly when there is at least one prompt; the settings item, labelled "Settings...", always last and only there |
| Strings.Trim | src/apps/prompt/App.tsx:320 | the trimmed text is an infix of the input with only whitespace around it, and neither starts nor ends with whitespace |
| Strings.BlankIffAllWhitespace | src/apps/prompt/App.tsx:295 | a text trims to the empty string exactly when every character is whitespace |
| Strings.TrimIdempotent | src/services/ai/main.ts:68 | trimming an already trimmed text changes nothing |
| Strings.NatToString | src/services/logger/main.ts:51-55 | the decimal rendering of a natural number is all digits, has no leading zero, and has one digit below 10 and two digits from 10 to 99 |
| Strings.DecimalValueOfNatToString | src/services/logger/main.ts:51-55 | the decimal rendering reads back as the number |
| Strings.PadStart | src/services/logger/main.ts:51-55 | padding gives the width (or the text unchanged when it is already that long), the text at the end and only the pad character before it |
| Strings.DecimalValueZeroPad | src/services/logger/main.ts:51-55 | zero padding keeps a digit string all digits and keeps its value |
| LocalTime.TwoDigits | src/services/logger/main.ts:51-55 | a number padded to two digits has at least two digits, exactly two below 100, and reads back as the number |
| LocalTime.ZoneParts | src/services/logger/main.ts:50-56 | the minutes part is below 60, the hours part below 100 for offsets under 100 hours, and sign, hours and minutes give back the flipped offset |
| LocalTime.Assemble | src/services/logger/main.ts:58 | a sign, padded hours, a colon and padded minutes form a `±hh:mm` text that reads back as the signed minutes and holds no `[` |
| LocalTime.TimezoneSuffix | src/services/logger/main.ts:44-58 | the suffix is `+` exactly when the zone is not behind UTC, has six characters for any real zone, and reads back as the zone's minutes east of UTC |
| LocalTime.AllDigitsMeans | src/services/logger/main.ts:51-55 | the recursive digit test holds exactly when every character is a digit |
| LocalTime.ParseAssembled | src/services/logger/main.ts:58 | an assembled suffix reads back as the signed total of minutes |
| LocalTime.LocalIsoString | src/services/logger/main.ts:43-59 | the local timestamp is the clock's ISO text minus its last character, followed by the zone suffix |
| LogSink.Fresh | src/services/logger/main.ts:10-12 | a new logger has no stream, nothing written and nothing buffered |
| LogSink.Emit | src/services/logger/main.ts:126-133 | a line is appended to the buffer while the stream is closed and written after it opens; either way the accepted lines grow by exactly that line |
| LogSink.Open | src/services/logger/main.ts:156-160 | opening writes every buffered line, in order, after what was already written, and empties the buffer |
| LogSink.Rotate | src/services/logger/main.ts:84-101 | the file is renamed exactly when it is larger than 10 MiB and the rename succeeds; a missing file at either step is fine; any other stat or rename error is raised |
| LogSink.Init | src/services/logger/main.ts:141-161 | in development the stream always opens; otherwise a rotation error rejects `init` and leaves the logger as it was, and success opens the stream and flushes the buffer |
| LogSink.FormatLine | src/services/logger/main.ts:76-77 | a line starts with the timestamp and a space and ends with a newline |
| LogSink.ParseTagRoundTrip | src/services/logger/main.ts:77 | a bracketed tag free of `]` is read back with what follows it |
| LogSink.ParseTagsRoundTrip | src/services/logger/main.ts:77 | a run of bracketed tags free of `]` is read back exactly |
| LogSink.FormatThenParse | src/services/logger/main.ts:70-78 | a formatted line keeps its timestamp, tags and message: reading it back gives all three, when the timestamp has no `[` and no tag has a `]` |
| LogSink.Stamp | src/services/logger/main.ts:43-59 | the line's timestamp is the local ISO string of the clock, and has no `[` when the clock's ISO text has none |
| LogSink.StepKeeps | src/services/logger/main.ts:113-161 | each message or `init` adds lines only at the end, keeps the buffer empty once the stream is open, opens the stream exactly at a successful `init`, and writes nothing while closed |
| Logger.LevelName | src/services/logger/main.ts:6 | the level names hold no `]`, so they survive as tags |
| Logger.PassesIff | src/services/logger/main.ts:7-8 | a message is kept exactly in development or when it is not a debug message; errors and infos always pass |
| Logger.WhatWorld | src/services/logger/main.ts:25-35 | no window means the main process; a window without `Buffer` is the renderer; a window with `Buffer` is the context bridge |
| Logger.FormatLogLine | src/services/logger/main.ts:70-78 | a log line is non-empty and ends with a newline |
| Logger.LogLineRoundTrip | src/services/logger/main.ts:70-78 | a log line reads back as its timestamp, level, world, module and message |
| Logger.Lower | src/services/logger/main.ts:113-124 | a message filtered by level reaches the sink as nothing; any other message as its formatted line; `init` as itself |
| Logger.Apply | src/services/logger/main.ts:113-134 | a filtered message changes nothing; a kept one is buffered while the stream is closed and written once it is open |
| Logger.RunKeepsAcceptedLines | src/services/logger/main.ts:113-161 | over any sequence of messages and `init` calls, every kept line is buffered or written exactly once in call order: all buffered and nothing written until a successful `init`, all written and nothing buffered after |
| Logger.ApplyKeeps | src/services/logger/main.ts:113-161 | one call keeps the accounting: its kept line joins the others, buffered while closed and written while open, and an opening `init` moves every buffered line to the file |
| Logger.ProductionDropsDebug | src/services/logger/main.ts:7-8 | outside development a debug message changes neither the log nor the accepted lines |
| LegacyLogger.FormatLogLine | src/logger/main.ts:41-44 | a log line is non-empty and ends with a newline |
| LegacyLogger.LogLineRoundTrip | src/logger/main.ts:41-44 | a log line reads back as its timestamp, level, context and message |
| LegacyLogger.WrappersTagMain | src/logger/main.ts:123-143 | `error`, `info` and `debug` write lines tagged with their own level and the `Main` context |
| LegacyLogger.Lower | src/logger/main.ts:77-90 | every message, whatever its level, becomes its formatted line |
| LegacyLogger.NoLevelFilter | src/logger/main.ts:77-90 | any message adds its own line; while the stream is closed it is buffered and nothing is written |
| LegacyLogger.RunKeepsEveryLine | src/logger/main.ts:77-116 | over any sequence of calls every message's line is buffered or written exactly once in call order: all buffered until a successful `init`, all written after |
| LegacyLogger.ApplyKeeps | src/logger/main.ts:77-116 | one call keeps the accounting: a message line joins the others, buffered while closed and written while open, and an opening `init` moves every buffered line to the file |

## Left out

- Everything inside the `ai` and `@ai-sdk/react` libraries is opaque. This covers `streamText` and `smoothStream`, request normalisation (`convertToModelMessages`, `pruneMessages`), `useChat`'s status changes, the removal of later messages by `regenerate`, and when `onFinish` fires. The upstream stream is a parameter, and the chat status is an input.
- Zod schemas, `validateUIMessages` and `safeStorage` are oracles. The settings and prompts records are parsed field by field, while conversation messages and encryption are parameters.
- File-system calls, `fs.watch`, `app.getPath`, `Date`, `setTimeout` and the stream write itself happen outside the model. Each outcome is a parameter: a read, a stat, a rename, a clock reading as an `Instant`. A timer firing is an explicit event (`SettingsApp.SavedTimerFires`, `SecureInput.SavedLowered`, `SecureInput.ResetFires`), which may come in any order with the user's events.
- `LogSink.Stamp` does not compute `toISOString()` of the shifted clock. That text is part of the `Instant`, and only the suffix arithmetic is modelled.
- `LocalTime.TimezoneSuffix` takes the zone offset as whole minutes, which `getTimezoneOffset` returns for every zone in use.
- The legacy logger's `rotateLogIfNeeded` has a branch for an unset log path that `init` never reaches, because it sets the path first. The model has no such branch.
- Strings are sequences of Unicode scalar values. JavaScript measures and slices in UTF-16 code units, so masks and sorting of text outside the Basic Multilingual Plane are not modelled.
- `path.join` normalisation is not modelled. A conversation's path is the directory, a slash, the id and `.json` (`ConversationsStore.FilePath`).
- `listConversations` takes natural limits and offsets. JavaScript's handling of negative ones is not modelled, because the window only passes 20 and counts.
- `ReadableStream` controller errors are not modelled, such as the TypeError of an enqueue after close. The model's stream ignores operations after it closes (`PromptTransport.ReadableClosedStable`).
- Logger calls are not modelled, with two exceptions: the error line of `AiMain.GenerateTextFromPrompt`, and the title-failure line of both prompt windows (src/apps/prompt/App.tsx:330-334 and src/prompt/App.tsx:301-305), which is a `LogError` effect of `PromptApp.SubmitNew`, `PromptApp.Settle`, `LegacyPrompt.LegacySubmit` and `LegacyPrompt.SendText`. The rest is left out: the AI handler, the renderer bridge, the tray, and the windows' other lines. It also covers the stores' own lines: the conversation that fails to load (src/services/conversations/main.ts:170) and the settings file that fails validation (src/services/settings/main.ts:128). They write to the log and change no state the model tracks.
- AiRenderer.Dispatch: takes the `onError` report made from the handler's catch to return normally. If that report threw too, the port would stay open, and this is not modelled.
- LegacySettings.LoadAsWritten: assumes the Anthropic model list requested by the mount-time provider effect arrives before the load completes. A later arrival would replace the loaded model with Anthropic's first model, and this order is not modelled.
- TrayMenu.MenuItems: the tray reads its prompts through src/prompts.ts, which is not part of this model. The prompt record of `PromptsStore`, a label and a text, stands in for that module's type.
- Json.Json: numbers are exact reals. Double rounding is not modelled, nor the overflow of a literal such as `1e400` to Infinity.
- Saving the conversation when a reply finishes, and loading a conversation into the prompt window, are not modelled. They are side effects of the chat library's callbacks.
- The following are not modelled: Electron windows, the tray icon, the menu items' click handlers, reloading the menu when the prompts file changes, context-bridge exposure, IPC handler registration, scrolling, focus, the copy popover and all rendering markup.
- The `label` field of a system prompt is named `menuLabel`, because `label` is a Dafny keyword.
- `LegacySettings.ApplyLoaded` takes the legacy form's model list as a parameter. It is the answer of a main-process call that is not part of this model.

## Findings

| source | as written | input that shows it | evidently intended | confidence | as-written member | corrected member |
|---|---|---|---|---|---|---|
| src/apps/prompt/App.tsx:308-310 | the first assistant reply after the edit is looked up by slicing the full message list at the edited message's index among the shown messages | two system messages, then u1, a1, u2, a2; editing u2 (shown index 2) regenerates a1 | regenerate the first assistant reply after the edited message, counting positions in one list | high; not executed | PromptApp.RegenerateAnchorAsWritten and PromptApp.SubmitEditAsWritten, shown by PromptApp.AnchorAsWrittenMissesWithTwoSystemMessages | PromptApp.RegenerateAnchor, used by PromptApp.SubmitEdit; the two agree by PromptApp.SubmitEditAsWrittenAgrees when at most one system message leads |
| src/prompt/App.tsx:171,193-197 | the earlier bridge's `streamChat` (src/prompt/preload.ts:18-25) returns nothing, yet the abort listener calls its result as a cancel function | an abort while a reply is streaming: the call throws a TypeError, the stream is not closed and the port stays open | the bridge hands back a function that closes its port, and the listener then closes the stream | high; not executed | LegacyPreload.LegacyOnAbortAsWritten, shown by LegacyPreload.AbortAsWrittenLeavesStreamOpen | LegacyPreload.LegacyCancel and LegacyPreload.LegacyOnAbort |
| src/settings/App.tsx:42-73 | the load sets the provider state, and the provider effect then replaces the loaded model with the first listed model (or the empty string) | stored settings for Ollama with model `llama3`: the form starts on Anthropic, the effect runs for Ollama and clears the model, and the next save writes an empty model | the first-model default applies only when the user switches provider, and the loaded model is kept | medium; not executed | LegacySettings.LoadAsWritten, shown by LegacySettings.LoadAsWrittenClearsOllamaModel and LegacySettings.LoadAsWrittenResetsModel | LegacySettings.Load |
| src/apps/prompt/App.tsx:320-338 | a new message on an empty conversation waits for the title request before it sends and empties the input, while the status is still ready, so the textarea and Send stay enabled (lines 421, 452-456) and Enter submits again (line 436) | system prompt "Be brief", no shown messages, input "hi": Enter pressed twice before the title arrives asks for two titles and sends "hi" twice | a submit takes its text when it starts, so the text is sent once | medium; not executed | PromptApp.PressAsWritten and PromptApp.ResumeAsWritten, shown by PromptApp.DoublePressAsWrittenSendsTwice | PromptApp.Press and PromptApp.Resume, shown by PromptApp.DoublePressSendsOnce; both match PromptApp.SubmitNew for a single press by PromptApp.PressThenResumeAsWritten and PromptApp.PressThenResume |
| src/apps/conversations/App.tsx:48,63 | the window calls `Conversations.listConversations`, but its preload exposes the conversations bridge of src/services/conversations/renderer.ts:8-13, which offers only `saveConversation` | any conversations directory, even a full one: the first load throws a TypeError, loading ends, and the window says "No conversations yet" for good | the bridge forwards `listConversations(limit, offset)` to the `conversations:list` handler (src/services/conversations/ipc.ts:18-23) | high; not executed | ConversationList.RejectedFirstLoadShowsNothing | ConversationList.BrowsingListsEveryConversation over ConversationList.Listing |
| src/apps/conversations/App.tsx:124 | each entry's `updatedAt`, a number (src/services/conversations/main.ts:125-130), is passed to `formatDate`, which calls `getTime()` on it (line 8) | a listed conversation with `updatedAt` 1700000000000: rendering its date throws a TypeError | make the number a `Date` before wording it | high; not executed | ConversationList.FormatDateAsWritten, shown by ConversationList.ListedDateThrows | ConversationList.FormatUpdatedAt |
