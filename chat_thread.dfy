/** The chat-request hook as an object over the store slices it reads and
    dispatches to, the abort controllers and the outgoing traffic. Each
    dispatch replaces one slice; each method is proved against its
    transition in `Protocol`. */
module ChatThread {
  import opened ChatTypes
  import opened Compose
  import opened Protocol

  class Thread {
    /** The settings, the chat id and the external functions the hook uses. */
    const config: Config

    var chat: Chat
    var confirmation: Confirmation
    var history: set<ToolCallId>
    var aborts: AbortRegistry
    var outbox: Outbox

    /** The thread as a value. */
    function State(): ThreadState
      reads this
    {
      ThreadState(chat, confirmation, history, aborts, outbox)
    }

    constructor (config: Config, init: ThreadState)
      ensures this.config == config && State() == init
    {
      this.config := config;
      chat, confirmation, history, aborts, outbox := init.chat, init.confirmation, init.history, init.aborts, init.outbox;
    }

    /** `sendMessages(messages, maybeMode)` called on its own: the gate reads
        the flags as they are when it is called. */
    method SendMessages(ms: seq<ChatMessage>, maybeMode: Option<LspChatMode>, gate: ConfirmationResponse,
                        freshId: string) returns (outcome: SendOutcome)
      modifies this
      ensures (State(), outcome) ==
                Send(config, old(State()), old(chat.waiting), old(confirmation.wasInteracted), ms, maybeMode, gate, freshId)
    {
      outcome := SendSeen(chat.waiting, confirmation.wasInteracted, ms, maybeMode, gate, freshId);
    }

    /** The body of `sendMessages`; `seenWaiting` and `seenInteracted` are
        the flags of the render the callback belongs to. `gate` is what the
        confirmation service answers if it is asked; `freshId` is the id
        `uuidv4` would produce. */
    method SendSeen(seenWaiting: bool, seenInteracted: bool, ms: seq<ChatMessage>, maybeMode: Option<LspChatMode>,
                    gate: ConfirmationResponse, freshId: string) returns (outcome: SendOutcome)
      modifies this
      ensures (State(), outcome) == Send(config, old(State()), seenWaiting, seenInteracted, ms, maybeMode, gate, freshId)
    {
      var step := GateStepFor(seenWaiting, seenInteracted, Last(ms), config.automaticPatch);
      outcome := SendStep(step, ms, maybeMode, gate, freshId);
    }

    /** `sendMessages` once the gate condition has been evaluated to `step`. */
    method SendStep(step: GateStep, ms: seq<ChatMessage>, maybeMode: Option<LspChatMode>,
                    gate: ConfirmationResponse, freshId: string) returns (outcome: SendOutcome)
      modifies this
      ensures outcome == OutcomeOf(step, gate, |old(outbox.requests)|)
      ensures State() == SentState(config, old(State()), ms, maybeMode, step, outcome, gate, freshId)
    {
      chat := chat.(waiting := true);
      if step.FirstCallMissing? {
        // reading the first tool call of an empty list throws
        return FirstToolCallMissing;
      }
      if step.AskGate? {
        var halted := ConsultGate(step.toolCalls, ms, gate);
        if halted.Some? {
          return halted.value;
        }
      }
      outcome := Dispatch(ms, maybeMode, freshId);
    }

    /** `triggerCheckForConfirmation` and what `sendMessages` does with its
        answer: `Some` of the outcome when the send stops there. */
    method ConsultGate(toolCalls: seq<ToolCall>, ms: seq<ChatMessage>, gate: ConfirmationResponse)
      returns (halted: Option<SendOutcome>)
      modifies this
      ensures outbox == old(outbox).(gateQueries := old(outbox.gateQueries) + [GateQuery(toolCalls, ms)])
      ensures halted == if gate.RpcFailure? then Some(GateFailed) else if gate.pause then Some(Paused) else None
      ensures confirmation == if halted == Some(Paused) then old(confirmation).(pauseReasons := gate.pauseReasons)
                              else old(confirmation)
      ensures chat == old(chat) && history == old(history) && aborts == old(aborts)
    {
      outbox := outbox.(gateQueries := outbox.gateQueries + [GateQuery(toolCalls, ms)]);
      if gate.RpcFailure? {
        // `unwrap()` throws
        return Some(GateFailed);
      }
      if gate.pause {
        confirmation := confirmation.(pauseReasons := gate.pauseReasons);
        return Some(Paused);
      }
      return None;
    }

    /** The dispatching half of `sendMessages`, once the gate let the
        messages through. */
    method Dispatch(ms: seq<ChatMessage>, maybeMode: Option<LspChatMode>, freshId: string) returns (outcome: SendOutcome)
      requires chat.waiting
      modifies this
      ensures outcome == Dispatched(|old(outbox.requests)|)
      ensures chat == SentChat(old(chat), ms, true, freshId)
      ensures outbox == old(outbox).(requests := old(outbox.requests) +
                                       [Request(ms, config.checkpointsEnabled, config.chatId, SendMode(config, old(State()), maybeMode))])
      ensures aborts == old(aborts).(handles := old(aborts.handles)[config.chatId := |old(outbox.requests)|])
      ensures confirmation == old(confirmation) && history == old(history)
    {
      var mode := if maybeMode.Some? then maybeMode.value else config.chatModeToLspMode(config.toolUse, chat.mode);
      RecordQuestion(ms, freshId);
      outcome := Transmit(Request(ms, config.checkpointsEnabled, config.chatId, mode));
    }

    /** `backUpMessages`, `chatAskedQuestion` and, for a trailing user
        message, `setLastUserMessageId`. */
    method RecordQuestion(ms: seq<ChatMessage>, freshId: string)
      requires chat.waiting
      modifies this
      ensures chat == SentChat(old(chat), ms, true, freshId)
      ensures confirmation == old(confirmation) && history == old(history)
      ensures aborts == old(aborts) && outbox == old(outbox)
    {
      chat := chat.(backup := Some(ms));
      chat := chat.(askedQuestion := true);
      if IsUser(Last(ms)) {
        chat := chat.(lastUserMessageId := Some(freshId));
      }
    }

    /** Dispatch the request thunk and register its abort handle for the chat. */
    method Transmit(request: Request) returns (outcome: SendOutcome)
      modifies this
      ensures outcome == Dispatched(|old(outbox.requests)|)
      ensures outbox == old(outbox).(requests := old(outbox.requests) + [request])
      ensures aborts == old(aborts).(handles := old(aborts.handles)[config.chatId := |old(outbox.requests)|])
      ensures chat == old(chat) && confirmation == old(confirmation) && history == old(history)
    {
      outcome := Dispatched(|outbox.requests|);
      outbox := outbox.(requests := outbox.requests + [request]);
      aborts := aborts.(handles := aborts.handles[config.chatId := outcome.handle]);
    }

    /** `clearPauseReasonsAndHandleToolsStatus`. */
    method ClearPauseReasonsAndHandleToolsStatus(interacted: bool, confirmationStatus: bool)
      modifies this
      ensures State() == ClearPause(old(State()), interacted, confirmationStatus)
    {
      confirmation := Confirmation(interacted, confirmationStatus, []);
    }

    /** The list `submit` builds in its local `messages`: the prompted
        history, without its last message when asked, then the question's
        message, or else the explicit list. */
    method SubmitMessageList(question: string, maybeMessages: Option<seq<ChatMessage>>, maybeDropLastMessage: bool)
      returns (ms: seq<ChatMessage>)
      ensures ms == SubmitMessages(config, State(), question, maybeMessages, maybeDropLastMessage)
    {
      ms := MessagesWithSystemPrompt(config.systemPrompts, chat.messages);
      if maybeDropLastMessage {
        ms := DropLast(ms);
      }
      if question != "" {
        ms := ms + [MaybeAddImagesToQuestion(config.attachedImages, question)];
      } else if maybeMessages.Some? {
        ms := maybeMessages.value;
      }
    }

    /** `submit`: compose the list, resolve and store the mode, then send. */
    method Submit(question: string, maybeMode: Option<LspChatMode>, maybeMessages: Option<seq<ChatMessage>>,
                  maybeDropLastMessage: bool, gate: ConfirmationResponse, freshId: string)
      returns (outcome: SendOutcome)
      modifies this
      ensures (State(), outcome) ==
                Protocol.Submit(config, old(State()), question, maybeMode, maybeMessages, maybeDropLastMessage, gate, freshId)
    {
      var seenWaiting, seenInteracted := chat.waiting, confirmation.wasInteracted;
      var ms := SubmitMessageList(question, maybeMessages, maybeDropLastMessage);
      var maybeConfigure := if chat.integration then Some(CONFIGURE) else None;
      var mode := config.chatModeToLspMode(config.toolUse, Coalesce(maybeMode, Coalesce(chat.mode, maybeConfigure)));
      chat := chat.(mode := Some(mode));
      outcome := SendSeen(seenWaiting, seenInteracted, ms, Some(mode), gate, freshId);
    }

    /** `abort`. */
    method Abort()
      modifies this
      ensures State() == Protocol.Abort(config, old(State()))
    {
      if config.chatId in aborts.handles {
        aborts := AbortRegistry(aborts.handles - {config.chatId}, aborts.cancelled + [aborts.handles[config.chatId]]);
      } else {
        assert aborts.handles - {config.chatId} == aborts.handles;
      }
      chat := chat.(preventSend := true);
      chat := chat.(messages := config.fixBrokenToolMessages(chat.messages));
      chat := chat.(waiting := false);
      chat := chat.(streaming := false);
    }

    /** `retry(messages)`: the send belongs to the render retry was called
        from, so it sees the flags as they were before the abort. */
    method Retry(ms: seq<ChatMessage>, gate: ConfirmationResponse, freshId: string) returns (outcome: SendOutcome)
      modifies this
      ensures (State(), outcome) == Protocol.Retry(config, old(State()), ms, gate, freshId)
    {
      var seenWaiting, seenInteracted := chat.waiting, confirmation.wasInteracted;
      var areToolsConfirmed := confirmation.confirmed;
      Abort();
      ClearPauseReasonsAndHandleToolsStatus(false, areToolsConfirmed);
      outcome := SendSeen(seenWaiting, seenInteracted, ms, None, gate, freshId);
    }

    /** `confirmToolUsage`. */
    method ConfirmToolUsage()
      modifies this
      ensures State() == Confirm(old(State()))
    {
      ClearPauseReasonsAndHandleToolsStatus(true, true);
      chat := chat.(waiting := false);
    }

    /** `rejectToolUsage(toolCallIds)`: each id is marked rejected in the
        history and in the thread, one after the other; then the interaction
        is reset and the thread stopped. */
    method RejectToolUsage(toolCallIds: seq<ToolCallId>)
      modifies this
      ensures State() == Reject(old(State()), toolCallIds)
    {
      var i := 0;
      while i < |toolCallIds|
        invariant 0 <= i <= |toolCallIds|
        invariant history == old(history) + IdSet(toolCallIds[..i])
        invariant chat == old(chat).(rejectedToolCalls := old(chat.rejectedToolCalls) + IdSet(toolCallIds[..i]))
        invariant confirmation == old(confirmation) && aborts == old(aborts) && outbox == old(outbox)
      {
        assert IdSet(toolCallIds[..i + 1]) == IdSet(toolCallIds[..i]) + {toolCallIds[i]} by {
          assert toolCallIds[..i + 1] == toolCallIds[..i] + [toolCallIds[i]];
        }
        history := history + {toolCallIds[i]};
        chat := chat.(rejectedToolCalls := chat.rejectedToolCalls + {toolCallIds[i]});
        i := i + 1;
      }
      assert toolCallIds[..i] == toolCallIds;
      // resetConfirmationInteractedState
      confirmation := confirmation.(wasInteracted := false, pauseReasons := []);
      chat := chat.(waiting := false);
      chat := chat.(streaming := false);
      chat := chat.(preventSend := true);
    }

    /** `retryFromIndex(index, question)`. */
    method RetryFromIndex(index: nat, question: UserContent, gate: ConfirmationResponse, freshId: string)
      returns (outcome: SendOutcome)
      requires index <= |chat.messages|
      modifies this
      ensures (State(), outcome) == Protocol.RetryFromIndex(config, old(State()), index, question, gate, freshId)
    {
      var messagesToKeep := chat.messages[..index];
      var messagesToSend := messagesToKeep + [UserMessage(question, [])];
      outcome := Retry(messagesToSend, gate, freshId);
    }

    /** The send-immediately effect of `useAutoSend`; `None` when it does not fire. */
    method SendImmediatelyEffect(gate: ConfirmationResponse, freshId: string) returns (outcome: Option<SendOutcome>)
      modifies this
      ensures (State(), outcome) == SendImmediately(config, old(State()), gate, freshId)
    {
      if chat.sendImmediately {
        var seenWaiting, seenInteracted := chat.waiting, confirmation.wasInteracted;
        var prompted := MessagesWithSystemPrompt(config.systemPrompts, chat.messages);
        chat := chat.(sendImmediately := false);
        var sent := SendSeen(seenWaiting, seenInteracted, prompted, None, gate, freshId);
        outcome := Some(sent);
      } else {
        outcome := None;
      }
    }

    /** The resume effect of `useAutoSend`; `None` when it does not fire. */
    method ResumeEffect(gate: ConfirmationResponse, freshId: string) returns (outcome: Option<SendOutcome>)
      modifies this
      ensures (State(), outcome) == Resume(config, old(State()), gate, freshId)
    {
      var stop := Errored(chat.error) || chat.preventSend || chat.waiting || chat.streaming
                  || !config.hasUncalledTools(chat.messages);
      var stopForToolConfirmation := if chat.integration then false
                                     else !confirmation.wasInteracted && !confirmation.confirmed;
      if stop || stopForToolConfirmation {
        return None;
      }
      var seenWaiting, seenInteracted := chat.waiting, confirmation.wasInteracted;
      ClearPauseReasonsAndHandleToolsStatus(false, confirmation.confirmed);
      var sent := SendSeen(seenWaiting, seenInteracted, chat.messages, chat.mode, gate, freshId);
      outcome := Some(sent);
    }
  }
}
