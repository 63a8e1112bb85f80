/** The values a chat thread is made of: messages, tool calls, attached images,
    system prompts, the confirmation service's answer and the records of what
    the thread sent. */
module ChatTypes {

  datatype Option<+T> = None | Some(value: T)

  /** The first present value, as JavaScript's `a ?? b` chain picks it. */
  function Coalesce<T>(a: Option<T>, b: Option<T>): (r: Option<T>)
    ensures a.Some? ==> r == a
    ensures a.None? ==> r == b
  {
    if a.Some? then a else b
  }

  type ChatId = string
  type ToolCallId = string
  type Checkpoint = string

  /** The backend's request mode (`LspChatMode`), e.g. "AGENT" or "CONFIGURE". */
  type LspChatMode = string

  const CONFIGURE: LspChatMode := "CONFIGURE"

  /** The thread's tool-use setting. */
  datatype ToolUse = Quick | Explore | Agent

  /** A tool call of an assistant message; its function name may be absent. */
  datatype ToolCall = ToolCall(id: ToolCallId, name: Option<string>, arguments: string)

  /** One part of a user message with images. */
  datatype ContentPart = ImageUrl(url: string) | TextPart(text: string)

  /** A user message holds plain text or a sequence of parts. */
  datatype UserContent = Text(text: string) | Parts(parts: seq<ContentPart>)

  /** A chat message, one variant per role; roles this core never inspects
      (context files, diffs, plain text) share the last variant. */
  datatype ChatMessage =
    | SystemMessage(content: string)
    | UserMessage(userContent: UserContent, checkpoints: seq<Checkpoint>)
    | AssistantMessage(content: string, toolCalls: Option<seq<ToolCall>>)
    | ToolMessage(toolCallId: ToolCallId, content: string)
    | OtherMessage(role: string, content: string)

  /** The content of an attached image: a data URL string, or something else
      (a file still being read). */
  datatype ImageContent = StringContent(data: string) | NonString

  datatype ImageFile = ImageFile(name: string, content: ImageContent)

  /** One entry of the configured system prompts: its key and its text. */
  datatype SystemPrompt = SystemPrompt(key: string, text: string)

  /** Why the confirmation service asks to pause before running a tool. */
  datatype PauseReason = PauseReason(kind: string, command: string, rule: string, toolCallId: ToolCallId)

  /** The confirmation service's answer: a response, or a failed call. */
  datatype ConfirmationResponse =
    | Response(pause: bool, pauseReasons: seq<PauseReason>)
    | RpcFailure

  /** A request handed to the transport. */
  datatype Request = Request(messages: seq<ChatMessage>, checkpointsEnabled: bool, chatId: ChatId, mode: LspChatMode)

  /** A question put to the confirmation service. */
  datatype GateQuery = GateQuery(toolCalls: seq<ToolCall>, messages: seq<ChatMessage>)

  /** The abort handle of the request at this index of the thread's request log. */
  type Handle = nat

  /** How one call of `sendMessages` ended. */
  datatype SendOutcome =
    | Dispatched(handle: Handle)
    | Paused
    | GateFailed
    | FirstToolCallMissing

  /** `messages.slice(-1)[0]`: the last message, if any. */
  function Last(ms: seq<ChatMessage>): (r: Option<ChatMessage>)
    ensures r.None? <==> ms == []
    ensures r.Some? ==> r.value == ms[|ms| - 1]
  {
    if ms == [] then None else Some(ms[|ms| - 1])
  }

  /** `isUserMessage(lastMessage)`: false when there is no message. */
  predicate IsUser(m: Option<ChatMessage>)
    ensures m.None? ==> !IsUser(m)
    ensures m.Some? ==> (IsUser(m) <==> m.value.UserMessage?)
  {
    m.Some? && m.value.UserMessage?
  }

  /** `isAssistantMessage(lastMessage) && lastMessage.tool_calls`: an assistant
      message whose tool-call list is present (an empty list is present). */
  predicate HasToolCalls(m: Option<ChatMessage>)
    ensures HasToolCalls(m) ==> m.Some? && m.value.AssistantMessage?
    ensures m.Some? && m.value.AssistantMessage? ==> (HasToolCalls(m) <==> m.value.toolCalls.Some?)
  {
    m.Some? && m.value.AssistantMessage? && m.value.toolCalls.Some?
  }
}
