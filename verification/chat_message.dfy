/**
  The conversation message record: its kinds, response modes, the five
  factories and the API codec, which carries only the server-side fields.
  `UUID()` and `Date()` are parameters (`id`, `now`); dates are integers.
 */
module ChatMessages {
  import opened Wrappers
  import opened JsonValues

  datatype MessageType = User | Ai | System | Error | ToolCall | ToolResult

  datatype AgentMode = Main | Spin | Think

  /** The record.  `kind` is Swift's `type`. */
  datatype Message = Message(
    id: string,
    chatId: string,
    userId: string,
    content: string,
    kind: MessageType,
    mode: Option<AgentMode>,
    createdAt: int,
    // client-side properties, never sent to the API
    hasError: bool,
    hasToolCallAfter: bool,
    toolCallId: Option<string>,
    toolName: Option<string>,
    toolArgs: Option<map<string, string>>,
    toolResult: Option<map<string, string>>,
    toolCallApproved: Option<bool>)

  // ---------------------------------------------------------------------------
  // Raw values of the two enums
  // ---------------------------------------------------------------------------

  function TypeRaw(t: MessageType): string
  {
    match t
    case User => "user"
    case Ai => "ai"
    case System => "system"
    case Error => "error"
    case ToolCall => "toolCall"
    case ToolResult => "toolResult"
  }

  /** `MessageType(rawValue:)`: the inverse of `TypeRaw`, nil for any other string. */
  function TypeFromRaw(s: string): (r: Option<MessageType>)
    ensures forall t :: r == Some(t) <==> TypeRaw(t) == s
  {
    if s == "user" then Some(User)
    else if s == "ai" then Some(Ai)
    else if s == "system" then Some(System)
    else if s == "error" then Some(Error)
    else if s == "toolCall" then Some(ToolCall)
    else if s == "toolResult" then Some(ToolResult)
    else None
  }

  function ModeRaw(m: AgentMode): string
  {
    match m
    case Main => "main"
    case Spin => "spin"
    case Think => "think"
  }

  /** `AgentMode(rawValue:)`: the inverse of `ModeRaw`, nil for any other string. */
  function ModeFromRaw(s: string): (r: Option<AgentMode>)
    ensures forall m :: r == Some(m) <==> ModeRaw(m) == s
  {
    if s == "main" then Some(Main)
    else if s == "spin" then Some(Spin)
    else if s == "think" then Some(Think)
    else None
  }

  // ---------------------------------------------------------------------------
  // Factories
  // ---------------------------------------------------------------------------

  /** No tool data and no tool boundary mark: what every non-tool factory leaves. */
  predicate NoToolData(m: Message)
  {
    && !m.hasToolCallAfter
    && m.toolCallId.None? && m.toolName.None? && m.toolArgs.None?
    && m.toolResult.None? && m.toolCallApproved.None?
  }

  function CreateUserMessage(id: string, content: string, now: int, chatId: string := "", userId: string := ""): (m: Message)
    ensures m.kind == User && m.mode.None? && !m.hasError
    ensures m.content == content && m.id == id && m.createdAt == now
    ensures m.chatId == chatId && m.userId == userId
    ensures NoToolData(m)
  {
    Message(id, chatId, userId, content, User, None, now, false, false, None, None, None, None, None)
  }

  function CreateAIMessage(id: string, content: string, mode: AgentMode, now: int, chatId: string := "", userId: string := ""): (m: Message)
    ensures m.kind == Ai && m.mode == Some(mode) && !m.hasError
    ensures m.content == content && m.id == id && m.createdAt == now
    ensures m.chatId == chatId && m.userId == userId
    ensures NoToolData(m)
  {
    Message(id, chatId, userId, content, Ai, Some(mode), now, false, false, None, None, None, None, None)
  }

  function CreateErrorMessage(id: string, content: string, now: int, chatId: string := "", userId: string := ""): (m: Message)
    ensures m.kind == Error && m.mode.None? && m.hasError
    ensures m.content == content && m.id == id && m.createdAt == now
    ensures m.chatId == chatId && m.userId == userId
    ensures NoToolData(m)
  {
    Message(id, chatId, userId, content, Error, None, now, true, false, None, None, None, None, None)
  }

  /**
    `createToolCallMessage`: the message id is the given tool-call id, or the
    fresh id when none is given; `toolCallId` is the given id itself.
   */
  function CreateToolCallMessage(freshId: string, name: string, args: map<string, string>, now: int,
                                 id: Option<string> := None, chatId: string := "", userId: string := ""): (m: Message)
    ensures m.kind == ToolCall && m.mode.None? && !m.hasError && !m.hasToolCallAfter
    ensures m.content == "Tool Call: " + name
    ensures m.toolName == Some(name) && m.toolArgs == Some(args)
    ensures m.toolCallId == id
    ensures m.id == (if id.Some? then id.value else freshId)
    ensures m.toolResult.None? && m.toolCallApproved.None?
    ensures m.createdAt == now && m.chatId == chatId && m.userId == userId
  {
    Message(id.GetOr(freshId), chatId, userId, "Tool Call: " + name, ToolCall, None, now,
            false, false, id, Some(name), Some(args), None, None)
  }

  function CreateToolResultMessage(id: string, content: string, toolCallId: string, result: map<string, string>, now: int,
                                   chatId: string := "", userId: string := ""): (m: Message)
    ensures m.kind == ToolResult && m.mode.None? && !m.hasError && !m.hasToolCallAfter
    ensures m.content == content && m.id == id && m.createdAt == now
    ensures m.toolCallId == Some(toolCallId) && m.toolResult == Some(result)
    ensures m.toolName.None? && m.toolArgs.None?
    ensures m.toolCallApproved == Some(true)
    ensures m.chatId == chatId && m.userId == userId
  {
    Message(id, chatId, userId, content, ToolResult, None, now, false, false,
            Some(toolCallId), None, None, Some(result), Some(true))
  }

  // ---------------------------------------------------------------------------
  // API codec
  // ---------------------------------------------------------------------------

  /** The API fields of `m`, with every client-side property back at its default. */
  function ApiView(m: Message): Message
  {
    m.(hasError := false, hasToolCallAfter := false, toolCallId := None, toolName := None,
       toolArgs := None, toolResult := None, toolCallApproved := None)
  }

  /** `encode(to:)`: the seven API keys, with `mode` only when it is present. */
  function Encode(m: Message): (j: Json)
    ensures j.JObject?
    ensures j.fields.Keys == {"id", "chatId", "userId", "content", "type", "createdAt"}
                             + (if m.mode.Some? then {"mode"} else {})
    ensures j.fields["content"] == JString(m.content)
    ensures j.fields["type"] == JString(TypeRaw(m.kind))
  {
    JObject(map[
      "id" := JString(m.id),
      "chatId" := JString(m.chatId),
      "userId" := JString(m.userId),
      "content" := JString(m.content),
      "type" := JString(TypeRaw(m.kind)),
      "createdAt" := JNumber(m.createdAt)
    ] + (if m.mode.Some? then map["mode" := JString(ModeRaw(m.mode.value))] else map[]))
  }

  function RequiredType(o: map<string, Json>): Decoded<MessageType>
  {
    var raw :- RequiredString(o, "type");
    match TypeFromRaw(raw)
    case Some(t) => Ok(t)
    case None => Mismatch
  }

  function ModeIfPresent(o: map<string, Json>): Decoded<Option<AgentMode>>
  {
    var raw :- StringIfPresent(o, "mode");
    match raw
    case None => Ok(None)
    case Some(s) =>
      match ModeFromRaw(s)
      case Some(m) => Ok(Some(m))
      case None => Mismatch
  }

  /**
    `init(from:)`: the six required keys must be present and well typed, `mode`
    is optional; every client-side property starts at its default.
   */
  function Decode(j: Json): (r: Decoded<Message>)
    ensures r.Ok? ==> r.value == ApiView(r.value)
    ensures r.Ok? ==> j.JObject? && "id" in j.fields && j.fields["id"] == JString(r.value.id)
  {
    if !j.JObject? then Mismatch
    else
      var o := j.fields;
      var id :- RequiredString(o, "id");
      var chatId :- RequiredString(o, "chatId");
      var userId :- RequiredString(o, "userId");
      var content :- RequiredString(o, "content");
      var kind :- RequiredType(o);
      var mode :- ModeIfPresent(o);
      var createdAt :- RequiredNumber(o, "createdAt");
      Ok(Message(id, chatId, userId, content, kind, mode, createdAt, false, false, None, None, None, None, None))
  }

  /** Decoding an encoded message gives back its API fields and drops all client state. */
  lemma DecodeEncode(m: Message)
    ensures Decode(Encode(m)) == Ok(ApiView(m))
  {
    var o := Encode(m).fields;
    assert o["id"] == JString(m.id);
    assert o["chatId"] == JString(m.chatId);
    assert o["userId"] == JString(m.userId);
    assert o["createdAt"] == JNumber(m.createdAt);
    assert TypeFromRaw(TypeRaw(m.kind)) == Some(m.kind);
    if m.mode.Some? {
      assert o["mode"] == JString(ModeRaw(m.mode.value));
      assert ModeFromRaw(ModeRaw(m.mode.value)) == Some(m.mode.value);
    } else {
      assert "mode" !in o;
    }
  }

  /** Every factory-built message survives the round trip except for its client-side state. */
  lemma DecodeEncodeFactories(id: string, content: string, mode: AgentMode, now: int)
    ensures Decode(Encode(CreateUserMessage(id, content, now))) == Ok(CreateUserMessage(id, content, now))
    ensures Decode(Encode(CreateAIMessage(id, content, mode, now))) == Ok(CreateAIMessage(id, content, mode, now))
    ensures Decode(Encode(CreateErrorMessage(id, content, now))).value.hasError == false
  {
    DecodeEncode(CreateUserMessage(id, content, now));
    DecodeEncode(CreateAIMessage(id, content, mode, now));
    DecodeEncode(CreateErrorMessage(id, content, now));
  }
}
