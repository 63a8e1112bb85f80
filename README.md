# Chat request orchestration of the refact GUI, in Dafny

This project models the core of the chat hook `useSendChatRequest` and its companion `useAutoSend`. Together they decide when a chat thread sends its messages to the assistant backend, and what it sends:

- the tool-confirmation gate;
- dispatching a request and registering its abort handle;
- composing a submitted question, attached images included;
- abort, retry and retry-from-index;
- confirming and rejecting tool calls;
- the two auto-send effects.

The project is split into four modules:

- `ChatTypes` (`chat_types.dfy`): messages, tool calls, images, system prompts, the confirmation service's answer, and the records of what was sent.
- `Compose` (`compose.dfy`): the pure message-building code.
  - `messagesWithSystemPrompt`;
  - the `reduce` inside `maybeAddImagesToQuestion`, with a reference definition and lemmas;
  - the list and the mode `submit` composes;
  - the list `retryFromIndex` sends.
- `Protocol` (`protocol.dfy`): the thread as a value (`ThreadState`). Each callback and each effect is a transition function on that value, with its contract, and lemmas relate the transitions. The value has one component per store slice the hook dispatches to:
  - the chat thread;
  - tool confirmation;
  - tool-call history;
  - the abort controllers;
  - an outbox recording the requests handed to the transport and the questions put to the confirmation service.
- `ChatThread` (`chat_thread.dfy`): class `Thread`, whose fields are those slices. Each callback is a method that changes the fields one dispatch at a time, in the source's order, and is proved to end in the state its `Protocol` transition gives. `rejectToolUsage` keeps its loop over the ids.

Things outside the hook are parameters of the model:

- The confirmation RPC's answer (`gate`: a response or a failed call).
- The id `uuidv4` would return (`freshId`).
- Three functions from files this model does not include, kept abstract as fields of `Config`: `chatModeToLspMode`, the `fixBrokenToolMessages` reducer and the `selectHasUncalledTools` selector.

The callbacks are closures over one render. `sendMessages` therefore reads `isWaiting` and `wasInteracted` as they were when that render happened:

- The model passes them as `seenWaiting` and `seenInteracted`.
- `SendMessages` passes the current flags.
- `Submit`, `Retry` and both effects pass the flags as they were when they were entered.

So the "not waiting" test uses the value from before `sendMessages` sets waiting. A resume right after a confirmation does not ask the gate again, although the resume resets the interaction flag first.

Behaviours of the code worth noting:

- The patch-like bypass looks only at the first tool call, not at every tool call. `MixedToolCallsSkipGate` shows a patch call followed by another call skipping confirmation.
- A failed confirmation call is not turned into a thread error. `.unwrap()` throws inside the async callback and nothing catches it, so the model ends the call with `GateFailed`: waiting stays set and nothing is dispatched.
- An assistant message with an empty `tool_calls` array passes the truthiness test. Reading `toolCalls[0].function` then throws, so the call ends with `FirstToolCallMissing` after only setting waiting.
- The auto-send effect tests the error for truthiness. An empty error message does not stop it, just as no error does not (`EmptyErrorDoesNotStop`).
- The send-immediately effect (lines 349-354) tests only its own flag. An error, prevent-send or waiting does not stop it (`Protocol.SendImmediately`); only the resume effect checks them.
- `submit` does not check whether the thread is waiting. A question ends the composed list with a user message, so the gate is never asked and the request is always dispatched.

Reducers whose source is not part of this model are modelled by what their names and payloads say:

- `clearPauseReasonsAndHandleToolsStatus` sets both confirmation flags from its payload and clears the pause reasons.
- `resetConfirmationInteractedState` clears the interaction flag and the pause reasons and keeps the confirmation.
- `upsertToolCall` and `upsertToolCallIntoHistory` with `accepted: false` add the id to a set of rejected calls.
- `abortControllers.abort(chatId)` cancels the chat's handle, if any, and drops it.
- `addAbortController` replaces the chat's handle.
- `setIsWaitingForResponse(b)` sets waiting to `b`.
- `setPauseReasons(reasons)` replaces the pause reasons and keeps both confirmation flags.
- `backUpMessages` records the list as the chat's backup.
- `chatAskedQuestion` only sets the asked mark. In particular it leaves prevent-send, waiting and send-immediately as they are.
- `setLastUserMessageId` sets the last user message id.
- `setChatMode(mode)` stores the mode on the thread.
- `setPreventSend` sets prevent-send and nothing else.
- `doneStreaming` clears streaming and nothing else.
- `setSendImmediately(false)` clears the send-immediately flag.
- `isUserMessage` and `isAssistantMessage` test only the message's role, and are false for a missing message.

No operation of this hook clears prevent-send under these assumptions. So after an abort, a retry or a rejection the resume effect does not fire again (`RetryBlocksResume`, `RejectAndAbortBlockResume`) until code outside this model clears it.

## Model

| member | source | states |
|---|---|---|
| ChatTypes.Coalesce | refact-agent/gui/src/hooks/useSendChatRequest.ts:241 | `a ?? b`: the first operand when present, else the second |
| ChatTypes.IsUser | refact-agent/gui/src/hooks/useSendChatRequest.ts:161 | `isUserMessage(lastMessage)`: false for a missing message, otherwise true exactly for a user message |
| ChatTypes.HasToolCalls | refact-agent/gui/src/hooks/useSendChatRequest.ts:133-134 | `isAssistantMessage(lastMessage) && lastMessage.tool_calls`: only an assistant message qualifies, and then exactly when its tool-call list is present, an empty list included |
| ChatTypes.Last | refact-agent/gui/src/hooks/useSendChatRequest.ts:128 | `messages.slice(-1)[0]` is absent exactly for an empty list, else the last element |
| Compose.MessagesWithSystemPrompt | refact-agent/gui/src/hooks/useSendChatRequest.ts:113-123 | the history changes iff there is a first prompt, its key is not "default" and the history is empty; then it is exactly one system message holding that prompt's text |
| Compose.SystemPromptIdempotent | refact-agent/gui/src/hooks/useSendChatRequest.ts:113-123 | applying the system prompt to its own result changes nothing |
| Compose.ImageUrlParts | refact-agent/gui/src/hooks/useSendChatRequest.ts:195-204 | reference definition of the image parts: at most one part per image |
| Compose.ImageUrlPartsMembers | refact-agent/gui/src/hooks/useSendChatRequest.ts:195-204 | there are no parts iff no image has string content; every part is an `image_url` of some string-content image, and every string-content image gives a part |
| Compose.ImageUrlPartsAppend | refact-agent/gui/src/hooks/useSendChatRequest.ts:195-204 | the parts of a concatenation are the parts of each half, in order |
| Compose.CollectImageParts | refact-agent/gui/src/hooks/useSendChatRequest.ts:195-204 | the `reduce` keeps its accumulator as a prefix and adds at most one part per image |
| Compose.CollectImagePartsOrdered | refact-agent/gui/src/hooks/useSendChatRequest.ts:195-204 | the `reduce` with `concat` computes the accumulator followed by the reference parts, in image order |
| Compose.MaybeAddImagesToQuestion | refact-agent/gui/src/hooks/useSendChatRequest.ts:190-216 | always a user message with no checkpoints; plain question text when no image has string content; otherwise the image parts in order, then one text part with the question |
| Compose.TwoImagesExample | refact-agent/gui/src/hooks/useSendChatRequest.ts:190-216 | two string images and "fix this" give two `image_url` parts and the text part, in that order |
| Compose.DropLast | refact-agent/gui/src/hooks/useSendChatRequest.ts:226-228 | `slice(0, -1)`: empty stays empty, otherwise the list minus its last element |
| Compose.ComposeSubmit | refact-agent/gui/src/hooks/useSendChatRequest.ts:225-235 | a question appends its message to the (possibly shortened) prompted history; otherwise an explicit list replaces everything, the drop included; otherwise the (possibly shortened) history |
| Compose.SubmitModeArgument | refact-agent/gui/src/hooks/useSendChatRequest.ts:238-242 | precedence: explicit mode, then the thread's mode, then "CONFIGURE" exactly when the thread has an integration |
| Compose.RetryFromIndexMessages | refact-agent/gui/src/hooks/useSendChatRequest.ts:310-314 | the first `index` messages, unchanged, followed by exactly one new user message with the given content and no checkpoints |
| Compose.RetryFromIndexExample | refact-agent/gui/src/hooks/useSendChatRequest.ts:310-314 | ten messages and index 3 send the first three and the new message |
| Protocol.IsPatchLike | refact-agent/gui/src/hooks/useSendChatRequest.ts:137-142 | a name is patch-like iff it is present and one of the six listed names (`patch`, `text_edit`, `create_textdoc`, `update_textdoc`, `replace_textdoc`, `update_textdoc_regex`); the truthiness test excludes nothing more |
| Protocol.PatchLikeNames | refact-agent/gui/src/hooks/useSendChatRequest.ts:81-88 | every listed name is patch-like; `shell`, the empty name and a missing name are not |
| Protocol.GateStepFor | refact-agent/gui/src/hooks/useSendChatRequest.ts:130-142 | the gate is asked iff the render saw no waiting and no interaction, the last message is an assistant message with a tool-call list, the list is non-empty, and not (first call's name is patch-like and automatic patching is on); an empty list is the throwing case |
| Protocol.OnlyFirstToolCallDecides | refact-agent/gui/src/hooks/useSendChatRequest.ts:137-142 | tool calls after the first never change whether the gate is asked |
| Protocol.MixedToolCallsSkipGate | refact-agent/gui/src/hooks/useSendChatRequest.ts:137-142 | a patch call followed by any other call skips the gate when automatic patching is on |
| Protocol.SendMode | refact-agent/gui/src/hooks/useSendChatRequest.ts:158-159 | `maybeMode ?? chatModeToLspMode(...)`: the explicit mode when given, else the mode derived from the tool-use setting and the thread's mode |
| Protocol.ClearPause | refact-agent/gui/src/hooks/useSendChatRequest.ts:269-274 | `clearPauseReasonsAndHandleToolsStatus`: both confirmation flags from the payload, no pause reasons, nothing else changes |
| Protocol.Send | refact-agent/gui/src/hooks/useSendChatRequest.ts:125-174 | waiting is always set; the gate query is logged iff the gate is asked; Paused, GateFailed and FirstToolCallMissing each hold exactly in their case and change nothing but waiting, the gate log and (on a pause) the reasons; a dispatch backs up the messages, marks the question, sets the fresh id iff the last message is a user message, appends exactly one request with the explicit or derived mode, and registers its handle under the chat, replacing any earlier one |
| Protocol.Abort | refact-agent/gui/src/hooks/useSendChatRequest.ts:258-264 | the chat's handle is cancelled if registered and is no longer registered; messages repaired; sending prevented, waiting cleared, streaming done; nothing else changes |
| Protocol.AbortTwice | refact-agent/gui/src/hooks/useSendChatRequest.ts:258-264 | a second abort leaves the flags, the registry and the outbox as the first left them, and the whole state when the repair is idempotent |
| Protocol.Confirm | refact-agent/gui/src/hooks/useSendChatRequest.ts:280-289 | interacted and confirmed, no pause reasons, waiting cleared, nothing else changes and nothing is sent |
| Protocol.Reject | refact-agent/gui/src/hooks/useSendChatRequest.ts:291-306 | every listed id is rejected in the thread and in the history, and only those ids are added; interaction reset with the confirmation kept; waiting cleared, streaming done, sending prevented; nothing is sent or cancelled |
| Protocol.Retry | refact-agent/gui/src/hooks/useSendChatRequest.ts:266-278 | the abort's effects, then interaction false with the confirmation kept, then a send without explicit mode whose gate reads the flags from before the call: it pauses, fails or hits the missing first call exactly in those cases of the gate; a dispatch appends exactly one request with the derived mode under the next handle, and otherwise none is appended and the chat has no handle |
| Protocol.RetryFromIndex | refact-agent/gui/src/hooks/useSendChatRequest.ts:308-317 | cancels the chat's earlier handle, clears streaming and sets prevent-send as an abort does, and prevent-send stays set after the dispatch; then always dispatches, without asking the gate, a request of exactly the first `index` messages and the new user message; that message gets the fresh id and the list is backed up |
| Protocol.Submit | refact-agent/gui/src/hooks/useSendChatRequest.ts:218-246 | the resolved mode is stored; a dispatch sends exactly the composed list with that mode, anything else sends nothing; a question always dispatches without asking the gate |
| Protocol.SendImmediately | refact-agent/gui/src/hooks/useSendChatRequest.ts:349-354 | fires iff the flag is set, always leaves it cleared, changes nothing when it does not fire, and sends the system-prompted history with the derived mode |
| Protocol.Errored | refact-agent/gui/src/hooks/useSendChatRequest.ts:357 | `if (errored)`: no error and the empty message are not errors; any non-empty message is |
| Protocol.Stop | refact-agent/gui/src/hooks/useSendChatRequest.ts:356-362 | the effect goes on iff there is no non-empty error, sending is not prevented, nothing is waiting or streaming, and some tool call is uncalled |
| Protocol.EmptyErrorDoesNotStop | refact-agent/gui/src/hooks/useSendChatRequest.ts:356-357 | an empty error message stops the effect exactly when no error would |
| Protocol.StopForToolConfirmation | refact-agent/gui/src/hooks/useSendChatRequest.ts:364-367 | the effect waits for the user iff the thread has no integration and the user neither interacted nor confirmed |
| Protocol.Resume | refact-agent/gui/src/hooks/useSendChatRequest.ts:356-389 | fires iff there is no non-empty error, no prevent-send, no waiting, no streaming, tools are uncalled, and the thread has an integration, an interaction or a confirmation; when it does not fire nothing changes; when it fires interaction becomes false and the confirmation is kept; a dispatch appends exactly the current messages with the thread's mode and any other outcome appends nothing; after an interaction the current messages are dispatched with the thread's mode without asking the gate |
| Protocol.ResumeIgnoresSendImmediately | refact-agent/gui/src/hooks/useSendChatRequest.ts:349-389 | the resume effect's firing and what it sends do not depend on the send-immediately flag |
| Protocol.PausedSendBlocksResume | refact-agent/gui/src/hooks/useSendChatRequest.ts:148-151 | after a paused send the thread is still waiting, so the resume effect does not fire |
| Protocol.ConfirmThenResumeDispatches | refact-agent/gui/src/hooks/useSendChatRequest.ts:369-380 | after a confirmation, with tools pending and nothing blocking, the resume effect dispatches the current messages with the thread's mode and does not ask the gate again |
| Protocol.RetryBlocksResume | refact-agent/gui/src/hooks/useSendChatRequest.ts:266-278 | after a retry, whatever its outcome, the resume effect does not fire and changes nothing |
| Protocol.RejectAndAbortBlockResume | refact-agent/gui/src/hooks/useSendChatRequest.ts:356-362 | after a rejection or an abort the resume effect does not fire and changes nothing |
| ChatThread.Thread.SendMessages | refact-agent/gui/src/hooks/useSendChatRequest.ts:125-175 | the new state and outcome are those of `Protocol.Send` on the old state, with the gate reading the current flags |
| ChatThread.Thread.SendSeen | refact-agent/gui/src/hooks/useSendChatRequest.ts:125-175 | the new state and outcome are those of `Protocol.Send` for the flags of the calling render |
| ChatThread.Thread.SendStep | refact-agent/gui/src/hooks/useSendChatRequest.ts:127-174 | once the gate condition has been evaluated: waiting set, then the throwing case, the gate, or the dispatch, ending in `Protocol.SentState` with the outcome `Protocol.OutcomeOf` |
| ChatThread.Thread.ConsultGate | refact-agent/gui/src/hooks/useSendChatRequest.ts:143-151 | the query is logged; a failed call stops with GateFailed; a pause records the reasons and stops with Paused; otherwise the send goes on; nothing else changes |
| ChatThread.Thread.Dispatch | refact-agent/gui/src/hooks/useSendChatRequest.ts:155-174 | backup, asked mark, fresh id for a trailing user message, one request with the explicit or derived mode, and its handle registered for the chat |
| ChatThread.Thread.RecordQuestion | refact-agent/gui/src/hooks/useSendChatRequest.ts:155-164 | backs up the messages, marks the question asked, and sets the fresh id iff the last message is a user message |
| ChatThread.Thread.Transmit | refact-agent/gui/src/hooks/useSendChatRequest.ts:166-174 | appends the request and registers its handle, the request's index, under the chat |
| ChatThread.Thread.ClearPauseReasonsAndHandleToolsStatus | refact-agent/gui/src/hooks/useSendChatRequest.ts:268-273 | both confirmation flags from the payload, pause reasons cleared, nothing else changes |
| ChatThread.Thread.SubmitMessageList | refact-agent/gui/src/hooks/useSendChatRequest.ts:225-235 | the step-by-step reassignment of the local list computes `Protocol.SubmitMessages` |
| ChatThread.Thread.Submit | refact-agent/gui/src/hooks/useSendChatRequest.ts:218-246 | the new state and outcome are those of `Protocol.Submit` on the old state |
| ChatThread.Thread.Abort | refact-agent/gui/src/hooks/useSendChatRequest.ts:258-264 | the new state is `Protocol.Abort` of the old one |
| ChatThread.Thread.Retry | refact-agent/gui/src/hooks/useSendChatRequest.ts:266-278 | the new state and outcome are those of `Protocol.Retry` on the old state |
| ChatThread.Thread.ConfirmToolUsage | refact-agent/gui/src/hooks/useSendChatRequest.ts:280-289 | the new state is `Protocol.Confirm` of the old one |
| ChatThread.Thread.RejectToolUsage | refact-agent/gui/src/hooks/useSendChatRequest.ts:291-306 | the loop over the ids followed by the four dispatches ends in `Protocol.Reject` of the old state |
| ChatThread.Thread.RetryFromIndex | refact-agent/gui/src/hooks/useSendChatRequest.ts:308-317 | the new state and outcome are those of `Protocol.RetryFromIndex` on the old state |
| ChatThread.Thread.SendImmediatelyEffect | refact-agent/gui/src/hooks/useSendChatRequest.ts:349-354 | the new state and optional outcome are those of `Protocol.SendImmediately` on the old state |
| ChatThread.Thread.ResumeEffect | refact-agent/gui/src/hooks/useSendChatRequest.ts:356-389 | the new state and optional outcome are those of `Protocol.Resume` on the old state |

## Left out

- React mechanics are not modelled: hooks, memoisation, dependency arrays and re-rendering. Each callback reads the thread as its render did, and each effect is a method run on the current state.
- Asynchrony is not modelled. The awaited confirmation call is one atomic answer, so no other callback can run between the question and the answer. `void sendMessages(...)` completes before its caller returns.
- The two effects are separate methods. When both would fire in one render, both read that render's values. Running them one after the other on the store does not model that case.
- The transport is not modelled. `chatAskQuestionThunk`, streaming and the backend are replaced by the outbox's request log. A handle is the request's index in that log.
- The selectors, `chatModeToLspMode` and `fixBrokenToolMessages` are abstract functions. The reducers are modelled by what their names and payloads say, as listed above; their source is not part of this model.
- `uuidv4` is not modelled; the fresh id is a parameter.
- `slice` with a negative or oversized index is not modelled. `retryFromIndex` requires `index <= |messages|`.
- Protocol.Send: a failed confirmation call or an empty tool-call list ends the call without recording an error on the thread. The exception the code raises is not modelled beyond that outcome.
- Protocol.Retry: that prevent-send is still set after a dispatch rests on the assumption that `chatAskedQuestion` leaves it alone. Its reducer is not part of this model, and nothing in this hook clears prevent-send.
- Protocol.RetryFromIndex: the same assumption about `chatAskedQuestion` underlies its prevent-send clause.
- ChatTypes.IsUser: `isUserMessage` is not part of this model. It is assumed to be false for a missing message and to test only the role.
- ChatTypes.HasToolCalls: `isAssistantMessage` is not part of this model. It is assumed to be false for a missing message and to test only the role.
- `question` of `submit` is a string. The empty string stands for an absent question, since both are falsy in the source's test.
