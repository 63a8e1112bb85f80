/** The request protocol of one chat thread as transitions on a value: what
    `sendMessages`, `submit`, `abort`, `retry`, `retryFromIndex`,
    `confirmToolUsage`, `rejectToolUsage` and the two auto-send effects do to
    the thread. These functions specify the methods of `ChatThread.Thread`. */
module Protocol {
  import opened ChatTypes
  import opened Compose

  /** Tools whose calls may skip confirmation when automatic patching is on. */
  const PATCH_LIKE_FUNCTIONS: seq<string> :=
    ["patch", "text_edit", "create_textdoc", "update_textdoc", "replace_textdoc", "update_textdoc_regex"]

  /** `name && PATCH_LIKE_FUNCTIONS.includes(name)`. No listed name is
      empty, so the truthiness test adds nothing to the membership test. */
  predicate IsPatchLike(name: Option<string>)
    ensures IsPatchLike(name) <==> name.Some? && name.value in PATCH_LIKE_FUNCTIONS
  {
    name.Some? && name.value != "" && name.value in PATCH_LIKE_FUNCTIONS
  }

  /** The listed names are patch-like; other names and a missing name are not. */
  lemma PatchLikeNames()
    ensures forall i :: 0 <= i < |PATCH_LIKE_FUNCTIONS| ==> IsPatchLike(Some(PATCH_LIKE_FUNCTIONS[i]))
    ensures !IsPatchLike(Some("shell")) && !IsPatchLike(Some("")) && !IsPatchLike(None)
  {
  }

  /** What the hook reads and never changes. The three functions stand for
      code this model does not include: `chatModeToLspMode`, the
      `fixBrokenToolMessages` reducer and the `selectHasUncalledTools`
      selector. */
  datatype Config = Config(
    chatId: ChatId,
    toolUse: ToolUse,
    systemPrompts: seq<SystemPrompt>,
    attachedImages: seq<ImageFile>,
    automaticPatch: bool,
    checkpointsEnabled: bool,
    chatModeToLspMode: (ToolUse, Option<LspChatMode>) -> LspChatMode,
    fixBrokenToolMessages: seq<ChatMessage> -> seq<ChatMessage>,
    hasUncalledTools: seq<ChatMessage> -> bool)

  /** The chat slice's record of the thread. `rejectedToolCalls` holds the
      tool calls `upsertToolCall` marked as not accepted. */
  datatype Chat = Chat(
    messages: seq<ChatMessage>,
    waiting: bool,
    streaming: bool,
    preventSend: bool,
    sendImmediately: bool,
    error: Option<string>,
    integration: bool,
    mode: Option<LspChatMode>,
    rejectedToolCalls: set<ToolCallId>,
    lastUserMessageId: Option<string>,
    backup: Option<seq<ChatMessage>>,
    askedQuestion: bool)

  /** The tool-confirmation slice. */
  datatype Confirmation = Confirmation(wasInteracted: bool, confirmed: bool, pauseReasons: seq<PauseReason>)

  /** The abort controllers: the live handle of each chat and the handles
      cancelled so far, in order. */
  datatype AbortRegistry = AbortRegistry(handles: map<ChatId, Handle>, cancelled: seq<Handle>)

  /** What left the hook: the requests handed to the transport (a handle is
      an index here) and the questions put to the confirmation service. */
  datatype Outbox = Outbox(requests: seq<Request>, gateQueries: seq<GateQuery>)

  /** Everything the hook reads and changes. `history` holds the tool calls
      `upsertToolCallIntoHistory` marked as not accepted. */
  datatype ThreadState = ThreadState(
    chat: Chat,
    confirmation: Confirmation,
    history: set<ToolCallId>,
    aborts: AbortRegistry,
    outbox: Outbox)

  /** What `sendMessages` does about confirmation before dispatching. */
  datatype GateStep = NoGate | AskGate(toolCalls: seq<ToolCall>) | FirstCallMissing

  /** The confirmation gate of `sendMessages`. `seenWaiting` and
      `seenInteracted` are the flags as the caller's render read them, before
      the call sets waiting. Only the first tool call decides the patch-like
      bypass; an empty tool-call list makes `toolCalls[0].function` throw. */
  function GateStepFor(seenWaiting: bool, seenInteracted: bool, last: Option<ChatMessage>,
                       automaticPatch: bool): (r: GateStep)
    ensures r.AskGate? <==>
              && !seenWaiting && !seenInteracted && HasToolCalls(last)
              && |last.value.toolCalls.value| > 0
              && !(IsPatchLike(last.value.toolCalls.value[0].name) && automaticPatch)
    ensures r.AskGate? ==> r.toolCalls == last.value.toolCalls.value
    ensures r.FirstCallMissing? <==>
              !seenWaiting && !seenInteracted && HasToolCalls(last) && last.value.toolCalls.value == []
  {
    if !seenWaiting && !seenInteracted && HasToolCalls(last) then
      var toolCalls := last.value.toolCalls.value;
      if |toolCalls| == 0 then FirstCallMissing
      else if IsPatchLike(toolCalls[0].name) && automaticPatch then NoGate
      else AskGate(toolCalls)
    else NoGate
  }

  /** Tool calls after the first one never change whether the gate is asked. */
  lemma OnlyFirstToolCallDecides(seenWaiting: bool, seenInteracted: bool, content: string,
                                 first: ToolCall, rest: seq<ToolCall>, automaticPatch: bool)
    ensures GateStepFor(seenWaiting, seenInteracted, Some(AssistantMessage(content, Some([first] + rest))), automaticPatch).AskGate?
        <==> GateStepFor(seenWaiting, seenInteracted, Some(AssistantMessage(content, Some([first]))), automaticPatch).AskGate?
  {
  }

  /** A patch call followed by a shell call skips confirmation when
      automatic patching is on: the bypass does not look past the first call. */
  lemma MixedToolCallsSkipGate(other: ToolCall)
    ensures GateStepFor(false, false,
              Some(AssistantMessage("", Some([ToolCall("1", Some("patch"), "{}"), other]))), true) == NoGate
  {
  }

  /** The mode `sendMessages` dispatches with: the explicit one, else the one
      derived from the tool-use setting and the thread's mode. */
  function SendMode(c: Config, s: ThreadState, maybeMode: Option<LspChatMode>): (r: LspChatMode)
    ensures maybeMode.Some? ==> r == maybeMode.value
    ensures maybeMode.None? ==> r == c.chatModeToLspMode(c.toolUse, s.chat.mode)
  {
    if maybeMode.Some? then maybeMode.value else c.chatModeToLspMode(c.toolUse, s.chat.mode)
  }

  /** `sendMessages(messages, maybeMode)`: waiting is set first; then the
      gate may be asked; a pause records its reasons and a failure or a
      missing first tool call ends the call, none of them dispatching.
      Otherwise the messages are backed up, the question is marked asked, a
      trailing user message gets the fresh id, the request is dispatched and
      its abort handle replaces any earlier one of this chat. */
  function Send(c: Config, s: ThreadState, seenWaiting: bool, seenInteracted: bool,
                ms: seq<ChatMessage>, maybeMode: Option<LspChatMode>,
                gate: ConfirmationResponse, freshId: string): (r: (ThreadState, SendOutcome))
    ensures r.0.chat.waiting
    ensures var step := GateStepFor(seenWaiting, seenInteracted, Last(ms), c.automaticPatch);
            && r.0.outbox.gateQueries == s.outbox.gateQueries + (if step.AskGate? then [GateQuery(step.toolCalls, ms)] else [])
            && (r.1.Paused? <==> step.AskGate? && gate.Response? && gate.pause)
            && (r.1.GateFailed? <==> step.AskGate? && gate.RpcFailure?)
            && (r.1.FirstToolCallMissing? <==> step.FirstCallMissing?)
    // an earlier render that saw the thread waiting or interacted never asks the gate
    ensures seenWaiting || seenInteracted ==> r.1.Dispatched? && r.0.outbox.gateQueries == s.outbox.gateQueries
    ensures r.0.confirmation ==
              s.confirmation.(pauseReasons := if r.1.Paused? && gate.Response? then gate.pauseReasons
                                              else s.confirmation.pauseReasons)
    ensures r.0.history == s.history && r.0.aborts.cancelled == s.aborts.cancelled
    ensures r.0.chat == s.chat.(waiting := true, backup := r.0.chat.backup, askedQuestion := r.0.chat.askedQuestion,
                                lastUserMessageId := r.0.chat.lastUserMessageId)
    // nothing is backed up, marked, registered or sent unless the call dispatches
    ensures !r.1.Dispatched? ==>
              && r.0.chat == s.chat.(waiting := true)
              && r.0.outbox.requests == s.outbox.requests && r.0.aborts == s.aborts
    ensures r.1.Dispatched? ==>
              && r.1.handle == |s.outbox.requests|
              && r.0.chat.backup == Some(ms) && r.0.chat.askedQuestion
              && r.0.chat.lastUserMessageId == (if IsUser(Last(ms)) then Some(freshId) else s.chat.lastUserMessageId)
              && r.0.outbox.requests ==
                   s.outbox.requests + [Request(ms, c.checkpointsEnabled, c.chatId, SendMode(c, s, maybeMode))]
              && r.0.aborts.handles == s.aborts.handles[c.chatId := |s.outbox.requests|]
  {
    var step := GateStepFor(seenWaiting, seenInteracted, Last(ms), c.automaticPatch);
    var outcome := OutcomeOf(step, gate, |s.outbox.requests|);
    (SentState(c, s, ms, maybeMode, step, outcome, gate, freshId), outcome)
  }

  /** How `sendMessages` ends, given the gate step and the gate's answer. */
  function OutcomeOf(step: GateStep, gate: ConfirmationResponse, handle: Handle): SendOutcome {
    if step.FirstCallMissing? then FirstToolCallMissing
    else if step.AskGate? && gate.RpcFailure? then GateFailed
    else if step.AskGate? && gate.pause then Paused
    else Dispatched(handle)
  }

  /** The thread after `sendMessages` ended with `outcome`. */
  function SentState(c: Config, s: ThreadState, ms: seq<ChatMessage>, maybeMode: Option<LspChatMode>,
                     step: GateStep, outcome: SendOutcome, gate: ConfirmationResponse, freshId: string): ThreadState
  {
    s.(chat := SentChat(s.chat, ms, outcome.Dispatched?, freshId),
       confirmation := if outcome.Paused? && gate.Response? then s.confirmation.(pauseReasons := gate.pauseReasons)
                       else s.confirmation,
       aborts := if outcome.Dispatched? then s.aborts.(handles := s.aborts.handles[c.chatId := |s.outbox.requests|])
                 else s.aborts,
       outbox := Outbox(if outcome.Dispatched?
                        then s.outbox.requests + [Request(ms, c.checkpointsEnabled, c.chatId, SendMode(c, s, maybeMode))]
                        else s.outbox.requests,
                        if step.AskGate? then s.outbox.gateQueries + [GateQuery(step.toolCalls, ms)]
                        else s.outbox.gateQueries))
  }

  /** The chat slice after `sendMessages`; `dispatched` tells whether the
      request went out. */
  function SentChat(chat: Chat, ms: seq<ChatMessage>, dispatched: bool, freshId: string): Chat {
    if dispatched then
      chat.(waiting := true, backup := Some(ms), askedQuestion := true,
            lastUserMessageId := if IsUser(Last(ms)) then Some(freshId) else chat.lastUserMessageId)
    else chat.(waiting := true)
  }

  /** `clearPauseReasonsAndHandleToolsStatus`. */
  function ClearPause(s: ThreadState, wasInteracted: bool, confirmed: bool): (r: ThreadState)
    ensures r.confirmation.wasInteracted == wasInteracted && r.confirmation.confirmed == confirmed
    ensures r.confirmation.pauseReasons == []
    ensures r.chat == s.chat && r.history == s.history && r.aborts == s.aborts && r.outbox == s.outbox
  {
    s.(confirmation := Confirmation(wasInteracted, confirmed, []))
  }

  /** `abort`: the chat's handle, if registered, is cancelled and dropped;
      the messages are repaired; sending is prevented, waiting cleared and
      streaming finished. Nothing is sent. */
  function Abort(c: Config, s: ThreadState): (r: ThreadState)
    ensures !r.chat.waiting && !r.chat.streaming && r.chat.preventSend
    ensures r.chat == s.chat.(messages := c.fixBrokenToolMessages(s.chat.messages), waiting := false,
                              streaming := false, preventSend := true)
    ensures c.chatId !in r.aborts.handles && r.aborts.handles == s.aborts.handles - {c.chatId}
    ensures r.aborts.cancelled ==
              s.aborts.cancelled + (if c.chatId in s.aborts.handles then [s.aborts.handles[c.chatId]] else [])
    ensures r == s.(chat := r.chat, aborts := r.aborts)
  {
    s.(aborts := AbortRegistry(s.aborts.handles - {c.chatId},
                               if c.chatId in s.aborts.handles then s.aborts.cancelled + [s.aborts.handles[c.chatId]]
                               else s.aborts.cancelled),
       chat := s.chat.(preventSend := true, messages := c.fixBrokenToolMessages(s.chat.messages),
                       waiting := false, streaming := false))
  }

  /** A second abort changes no flag, handle or request; when repairing the
      messages twice changes nothing, it changes nothing at all. */
  lemma AbortTwice(c: Config, s: ThreadState)
    ensures var once := Abort(c, s);
            var twice := Abort(c, once);
            && twice.chat.waiting == once.chat.waiting && twice.chat.streaming == once.chat.streaming
            && twice.chat.preventSend == once.chat.preventSend
            && twice.aborts == once.aborts && twice.outbox == once.outbox
    ensures c.fixBrokenToolMessages(c.fixBrokenToolMessages(s.chat.messages)) == c.fixBrokenToolMessages(s.chat.messages) ==>
              Abort(c, Abort(c, s)) == Abort(c, s)
  {
  }

  /** `confirmToolUsage`: interacted and confirmed, pause reasons cleared,
      waiting cleared; nothing is sent. */
  function Confirm(s: ThreadState): (r: ThreadState)
    ensures r.confirmation.wasInteracted && r.confirmation.confirmed && r.confirmation.pauseReasons == []
    ensures !r.chat.waiting
    ensures r == s.(chat := s.chat.(waiting := false), confirmation := Confirmation(true, true, []))
  {
    ClearPause(s, true, true).(chat := s.chat.(waiting := false))
  }

  /** The ids of a list. */
  function IdSet(ids: seq<ToolCallId>): set<ToolCallId> {
    set id | id in ids
  }

  /** `rejectToolUsage(ids)`: every listed id is marked rejected in the
      thread and in the history; the interaction is reset (the confirmation
      kept), waiting cleared, streaming finished and sending prevented.
      Nothing is sent. */
  function Reject(s: ThreadState, ids: seq<ToolCallId>): (r: ThreadState)
    ensures forall i :: 0 <= i < |ids| ==> ids[i] in r.chat.rejectedToolCalls && ids[i] in r.history
    ensures r.chat.rejectedToolCalls == s.chat.rejectedToolCalls + IdSet(ids)
    ensures r.history == s.history + IdSet(ids)
    ensures r.confirmation == s.confirmation.(wasInteracted := false, pauseReasons := [])
    ensures !r.chat.waiting && !r.chat.streaming && r.chat.preventSend
    ensures r.chat == s.chat.(rejectedToolCalls := r.chat.rejectedToolCalls, waiting := false, streaming := false,
                              preventSend := true)
    ensures r.aborts == s.aborts && r.outbox == s.outbox
  {
    s.(chat := s.chat.(rejectedToolCalls := s.chat.rejectedToolCalls + IdSet(ids), waiting := false,
                       streaming := false, preventSend := true),
       history := s.history + IdSet(ids),
       confirmation := s.confirmation.(wasInteracted := false, pauseReasons := []))
  }

  /** `retry(messages)`: abort, reset the interaction keeping the current
      confirmation, then `sendMessages(messages)` without an explicit mode.
      The send sees the flags of the render retry was called from. */
  function Retry(c: Config, s: ThreadState, ms: seq<ChatMessage>, gate: ConfirmationResponse,
                 freshId: string): (r: (ThreadState, SendOutcome))
    ensures r.0.aborts.cancelled ==
              s.aborts.cancelled + (if c.chatId in s.aborts.handles then [s.aborts.handles[c.chatId]] else [])
    ensures r.0.chat.messages == c.fixBrokenToolMessages(s.chat.messages)
    ensures !r.0.confirmation.wasInteracted && r.0.confirmation.confirmed == s.confirmation.confirmed
    ensures r.0.chat.waiting && !r.0.chat.streaming && r.0.chat.preventSend
    ensures r.0.confirmation.pauseReasons == if r.1.Paused? && gate.Response? then gate.pauseReasons else []
    ensures var step := GateStepFor(s.chat.waiting, s.confirmation.wasInteracted, Last(ms), c.automaticPatch);
            && r.0.outbox.gateQueries == s.outbox.gateQueries + (if step.AskGate? then [GateQuery(step.toolCalls, ms)] else [])
            && (r.1.Paused? <==> step.AskGate? && gate.Response? && gate.pause)
            && (r.1.GateFailed? <==> step.AskGate? && gate.RpcFailure?)
            && (r.1.FirstToolCallMissing? <==> step.FirstCallMissing?)
            && (r.1.Dispatched? ==> r.1.handle == |s.outbox.requests|)
    ensures r.1.Dispatched? ==>
              && r.0.outbox.requests == s.outbox.requests +
                   [Request(ms, c.checkpointsEnabled, c.chatId, c.chatModeToLspMode(c.toolUse, s.chat.mode))]
              && r.0.aborts.handles == s.aborts.handles[c.chatId := |s.outbox.requests|]
    ensures !r.1.Dispatched? ==> r.0.outbox.requests == s.outbox.requests && c.chatId !in r.0.aborts.handles
  {
    Send(c, ClearPause(Abort(c, s), false, s.confirmation.confirmed), s.chat.waiting, s.confirmation.wasInteracted,
         ms, None, gate, freshId)
  }

  /** `retryFromIndex(index, question)`: retry with the first `index`
      messages and a new user message. The last message being a user
      message, the gate is never asked: the request is always dispatched. */
  function RetryFromIndex(c: Config, s: ThreadState, index: nat, question: UserContent,
                          gate: ConfirmationResponse, freshId: string): (r: (ThreadState, SendOutcome))
    requires index <= |s.chat.messages|
    ensures r.1 == Dispatched(|s.outbox.requests|)
    ensures r.0.aborts.cancelled ==
              s.aborts.cancelled + (if c.chatId in s.aborts.handles then [s.aborts.handles[c.chatId]] else [])
    ensures r.0.chat.waiting && !r.0.chat.streaming && r.0.chat.preventSend
    ensures r.0.outbox.requests == s.outbox.requests +
              [Request(s.chat.messages[..index] + [UserMessage(question, [])], c.checkpointsEnabled, c.chatId,
                       c.chatModeToLspMode(c.toolUse, s.chat.mode))]
    ensures r.0.outbox.gateQueries == s.outbox.gateQueries
    ensures r.0.chat.lastUserMessageId == Some(freshId)
    ensures r.0.chat.backup == Some(s.chat.messages[..index] + [UserMessage(question, [])])
  {
    Retry(c, s, RetryFromIndexMessages(s.chat.messages, index, question), gate, freshId)
  }

  /** The list `submit` composes from the thread. */
  function SubmitMessages(c: Config, s: ThreadState, question: string,
                          maybeMessages: Option<seq<ChatMessage>>, dropLast: bool): seq<ChatMessage>
  {
    ComposeSubmit(MessagesWithSystemPrompt(c.systemPrompts, s.chat.messages), c.attachedImages, question,
                  maybeMessages, dropLast)
  }

  /** The mode `submit` resolves and stores. */
  function SubmitMode(c: Config, s: ThreadState, maybeMode: Option<LspChatMode>): LspChatMode {
    c.chatModeToLspMode(c.toolUse, SubmitModeArgument(maybeMode, s.chat.mode, s.chat.integration))
  }

  /** `submit`: the resolved mode is stored on the thread, then the composed
      list is sent with it. A non-empty question ends the list with a user
      message, so the gate is not asked and the request is dispatched. */
  function Submit(c: Config, s: ThreadState, question: string, maybeMode: Option<LspChatMode>,
                  maybeMessages: Option<seq<ChatMessage>>, dropLast: bool,
                  gate: ConfirmationResponse, freshId: string): (r: (ThreadState, SendOutcome))
    ensures r.0.chat.mode == Some(SubmitMode(c, s, maybeMode))
    ensures r.1.Dispatched? ==>
              r.0.outbox.requests == s.outbox.requests +
                [Request(SubmitMessages(c, s, question, maybeMessages, dropLast), c.checkpointsEnabled, c.chatId,
                         SubmitMode(c, s, maybeMode))]
    ensures !r.1.Dispatched? ==> r.0.outbox.requests == s.outbox.requests
    ensures question != "" ==> r.1 == Dispatched(|s.outbox.requests|) && r.0.outbox.gateQueries == s.outbox.gateQueries
    ensures r.0.chat.waiting
  {
    Send(c, s.(chat := s.chat.(mode := Some(SubmitMode(c, s, maybeMode)))), s.chat.waiting,
         s.confirmation.wasInteracted, SubmitMessages(c, s, question, maybeMessages, dropLast),
         Some(SubmitMode(c, s, maybeMode)), gate, freshId)
  }

  /** The first effect of `useAutoSend`: a pending send-immediately flag is
      cleared and the system-prompted history is sent; otherwise nothing
      happens. */
  function SendImmediately(c: Config, s: ThreadState, gate: ConfirmationResponse,
                           freshId: string): (r: (ThreadState, Option<SendOutcome>))
    ensures r.1.Some? <==> s.chat.sendImmediately
    ensures !r.0.chat.sendImmediately
    ensures !s.chat.sendImmediately ==> r.0 == s
    ensures s.chat.sendImmediately ==> r.0.chat.waiting
    ensures r.1.Some? && r.1.value.Dispatched? ==>
              r.0.outbox.requests == s.outbox.requests +
                [Request(MessagesWithSystemPrompt(c.systemPrompts, s.chat.messages), c.checkpointsEnabled, c.chatId,
                         c.chatModeToLspMode(c.toolUse, s.chat.mode))]
  {
    if s.chat.sendImmediately then
      var t := Send(c, s.(chat := s.chat.(sendImmediately := false)), s.chat.waiting, s.confirmation.wasInteracted,
                    MessagesWithSystemPrompt(c.systemPrompts, s.chat.messages), None, gate, freshId);
      (t.0, Some(t.1))
    else (s, None)
  }

  /** `if (errored)`: the error is tested for truthiness, so an empty
      message counts as no error. */
  predicate Errored(error: Option<string>)
    ensures error.None? || error == Some("") ==> !Errored(error)
    ensures error.Some? && error.value != "" ==> Errored(error)
  {
    error.Some? && error.value != ""
  }

  /** `stop` of `useAutoSend`: the effect goes on only when there is no
      (non-empty) error, sending is not prevented, nothing is in flight and
      some tool call has not been answered. */
  predicate Stop(c: Config, s: ThreadState)
    ensures !Stop(c, s) <==>
              && (s.chat.error.None? || s.chat.error.value == "")
              && !s.chat.preventSend && !s.chat.waiting && !s.chat.streaming
              && c.hasUncalledTools(s.chat.messages)
  {
    Errored(s.chat.error) || s.chat.preventSend || s.chat.waiting || s.chat.streaming
    || !c.hasUncalledTools(s.chat.messages)
  }

  /** An empty error message stops the effect no more than no error does. */
  lemma EmptyErrorDoesNotStop(c: Config, s: ThreadState)
    ensures Stop(c, s.(chat := s.chat.(error := Some("")))) == Stop(c, s.(chat := s.chat.(error := None)))
  {
  }

  /** `stopForToolConfirmation` of `useAutoSend`: the effect waits for the
      user exactly when the thread has no integration and the user neither
      interacted nor confirmed. */
  predicate StopForToolConfirmation(s: ThreadState)
    ensures StopForToolConfirmation(s) <==>
              !(s.chat.integration || s.confirmation.wasInteracted || s.confirmation.confirmed)
  {
    if s.chat.integration then false else !s.confirmation.wasInteracted && !s.confirmation.confirmed
  }

  /** The second effect of `useAutoSend`: unless stopped, reset the
      interaction keeping the confirmation and send the current messages
      with the thread's mode. It fires exactly when nothing blocks it and
      the thread has an integration, or the user interacted or confirmed. */
  function Resume(c: Config, s: ThreadState, gate: ConfirmationResponse,
                  freshId: string): (r: (ThreadState, Option<SendOutcome>))
    ensures r.1.Some? <==>
              && (s.chat.error.None? || s.chat.error.value == "")
              && !s.chat.preventSend && !s.chat.waiting && !s.chat.streaming
              && c.hasUncalledTools(s.chat.messages)
              && (s.chat.integration || s.confirmation.wasInteracted || s.confirmation.confirmed)
    ensures r.1.None? ==> r.0 == s
    ensures r.1.Some? ==>
              r.0.chat.waiting && !r.0.confirmation.wasInteracted && r.0.confirmation.confirmed == s.confirmation.confirmed
    ensures r.1.Some? && r.1.value.Dispatched? ==>
              r.0.outbox.requests ==
                s.outbox.requests + [Request(s.chat.messages, c.checkpointsEnabled, c.chatId, SendMode(c, s, s.chat.mode))]
    ensures r.1.Some? && !r.1.value.Dispatched? ==> r.0.outbox.requests == s.outbox.requests
    ensures r.1.Some? && s.confirmation.wasInteracted ==>
              && r.1.value == Dispatched(|s.outbox.requests|)
              && r.0.outbox.gateQueries == s.outbox.gateQueries
              && r.0.outbox.requests ==
                   s.outbox.requests + [Request(s.chat.messages, c.checkpointsEnabled, c.chatId, SendMode(c, s, s.chat.mode))]
  {
    if Stop(c, s) || StopForToolConfirmation(s) then (s, None)
    else
      var t := Send(c, ClearPause(s, false, s.confirmation.confirmed), s.chat.waiting, s.confirmation.wasInteracted,
                    s.chat.messages, s.chat.mode, gate, freshId);
      (t.0, Some(t.1))
  }

  /** The two effects are independent: whether the resume effect fires and
      what it sends do not depend on the send-immediately flag. */
  lemma ResumeIgnoresSendImmediately(c: Config, s: ThreadState, flag: bool, gate: ConfirmationResponse, freshId: string)
    ensures var r := Resume(c, s.(chat := s.chat.(sendImmediately := flag)), gate, freshId);
            && (r.1.Some? <==> Resume(c, s, gate, freshId).1.Some?)
            && r.1 == Resume(c, s, gate, freshId).1
            && r.0.outbox == Resume(c, s, gate, freshId).0.outbox
  {
  }

  /** A send the gate paused leaves the thread waiting, so the resume effect
      does not fire until something clears waiting. */
  lemma PausedSendBlocksResume(c: Config, s: ThreadState, seenWaiting: bool, seenInteracted: bool,
                               ms: seq<ChatMessage>, maybeMode: Option<LspChatMode>,
                               gate: ConfirmationResponse, freshId: string,
                               gate2: ConfirmationResponse, freshId2: string)
    ensures var t := Send(c, s, seenWaiting, seenInteracted, ms, maybeMode, gate, freshId);
            t.1.Paused? ==> Resume(c, t.0, gate2, freshId2).1.None?
  {
  }

  /** After the user confirms, the resume effect dispatches the current
      messages without asking the gate again, as soon as tools are pending
      and nothing else blocks it. */
  lemma ConfirmThenResumeDispatches(c: Config, s: ThreadState, gate: ConfirmationResponse, freshId: string)
    requires !Errored(s.chat.error) && !s.chat.preventSend && !s.chat.streaming && c.hasUncalledTools(s.chat.messages)
    ensures var r := Resume(c, Confirm(s), gate, freshId);
            && r.1 == Some(Dispatched(|s.outbox.requests|))
            && r.0.outbox.gateQueries == s.outbox.gateQueries
            && r.0.outbox.requests ==
                 s.outbox.requests + [Request(s.chat.messages, c.checkpointsEnabled, c.chatId, SendMode(c, s, s.chat.mode))]
  {
  }

  /** Rejected tool calls are not resent automatically: the rejection
      prevents sending, and so does an abort. */
  lemma RejectAndAbortBlockResume(c: Config, s: ThreadState, ids: seq<ToolCallId>,
                                  gate: ConfirmationResponse, freshId: string)
    ensures Resume(c, Reject(s, ids), gate, freshId) == (Reject(s, ids), None)
    ensures Resume(c, Abort(c, s), gate, freshId) == (Abort(c, s), None)
  {
  }

  /** A retry keeps sending prevented even when it dispatches, since no
      operation of the hook clears prevent-send: the resume effect does not
      fire after it. */
  lemma RetryBlocksResume(c: Config, s: ThreadState, ms: seq<ChatMessage>, gate: ConfirmationResponse,
                          freshId: string, gate2: ConfirmationResponse, freshId2: string)
    ensures var t := Retry(c, s, ms, gate, freshId);
            Resume(c, t.0, gate2, freshId2) == (t.0, None)
  {
  }
}
