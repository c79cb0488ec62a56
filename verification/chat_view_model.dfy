/**
  The chat screen's view model (`ChatViewModel`): sending a message, folding
  the agent's event stream into the message list (`streamResponse` and
  `handleToolCallChunk`), the error rewrite, and the second copy of that fold
  that answers a freshly created chat (`loadMessagesAndSendInitialIfNeeded`).

  Everything asynchronous is flattened: a stream is its finished list of
  events, and every fire-and-forget `chatService.addMessage` call becomes an
  entry appended to `outbox`.  `UUID()` is a counter (`nextId`) read through
  `FreshId`; `Date()` is the `now` of the environment.  The message that is
  being streamed into is tracked by its index, which is where the source's
  lookup by id lands because every id the model hands out is fresh.
 */
module ChatViewModels {
  import opened Wrappers
  import opened Text
  import opened JsonValues
  import opened StreamChunks
  import opened ChatMessages
  import opened AgentsService

  /** A call `chatService.addMessage(message, to: chatId)`. */
  datatype Submission = Submission(message: Message, chatId: string)

  datatype ChatViewModel = ChatViewModel(
    messages: seq<Message>,
    inputText: string,
    currentMode: AgentMode,
    isLoading: bool,
    errorMessage: Option<string>,
    isPrivateChat: bool,
    chatId: Option<string>,
    outbox: seq<Submission>,
    nextId: nat)

  /**
    What the model takes from outside: the clock, the JSON parser, the
    stringification of a JSON value (`String(describing:)`) and the
    `localizedDescription` of a stream error.
   */
  datatype Env = Env(
    now: int,
    parse: string -> Option<Json>,
    describe: Json -> string,
    describeError: ApiError -> string)

  /** The `n`-th fresh identifier (`UUID().uuidString`). */
  function FreshId(n: nat): string
  {
    "uuid-" + NatToString(n)
  }

  /** Distinct counters give distinct identifiers. */
  lemma {:induction false} FreshIdInjective(m: nat, n: nat)
    ensures FreshId(m) == FreshId(n) ==> m == n
  {
    if FreshId(m) == FreshId(n) {
      assert NatToString(m) == FreshId(m)[5..];
      assert NatToString(n) == FreshId(n)[5..];
      NatToStringRoundTrip(m);
      NatToStringRoundTrip(n);
    }
  }

  /** `init(chatId:)` (before loading) and `init()`: an empty, idle view model. */
  function NewViewModel(chatId: Option<string>): (vm: ChatViewModel)
    ensures vm.messages == [] && vm.outbox == [] && vm.inputText == ""
    ensures vm.currentMode == Main && !vm.isLoading && vm.errorMessage.None? && !vm.isPrivateChat
    ensures vm.chatId == chatId
  {
    ChatViewModel([], "", Main, false, None, false, chatId, [], 0)
  }

  /** `setPrivateMode(_:)`. */
  function SetPrivateMode(vm: ChatViewModel, isPrivate: bool): (r: ChatViewModel)
    ensures r.isPrivateChat == isPrivate
    ensures r.(isPrivateChat := vm.isPrivateChat) == vm
  {
    vm.(isPrivateChat := isPrivate)
  }

  /** `cancelStream()`: the stream task is abandoned and loading ends. */
  function CancelStream(vm: ChatViewModel): (r: ChatViewModel)
    ensures !r.isLoading
    ensures r.(isLoading := vm.isLoading) == vm
  {
    vm.(isLoading := false)
  }

  // ---------------------------------------------------------------------------
  // History submissions
  // ---------------------------------------------------------------------------

  /** Hands `m` to the chat service unless the chat is private or has no id. */
  function Persist(vm: ChatViewModel, m: Message): (r: ChatViewModel)
    ensures r.(outbox := vm.outbox) == vm
    ensures vm.isPrivateChat || vm.chatId.None? ==> r.outbox == vm.outbox
    ensures !vm.isPrivateChat && vm.chatId.Some? ==> r.outbox == vm.outbox + [Submission(m, vm.chatId.value)]
  {
    if !vm.isPrivateChat && vm.chatId.Some? then vm.(outbox := vm.outbox + [Submission(m, vm.chatId.value)])
    else vm
  }

  /** Appends `m` to the visible messages; `usesFresh` says whether it consumed an identifier. */
  function Append(vm: ChatViewModel, m: Message, usesFresh: bool): (r: ChatViewModel)
    ensures r.messages == vm.messages + [m]
    ensures r.nextId == (if usesFresh then vm.nextId + 1 else vm.nextId)
    ensures r.(messages := vm.messages, nextId := vm.nextId) == vm
  {
    vm.(messages := vm.messages + [m], nextId := if usesFresh then vm.nextId + 1 else vm.nextId)
  }

  // ---------------------------------------------------------------------------
  // Starting a chat and sending a message
  // ---------------------------------------------------------------------------

  /** What `chatService.createChat(title:initialMessage:)` is asked for. */
  datatype CreateChatRequest = CreateChatRequest(title: string, initialMessage: Option<string>)

  /** A service call's outcome: the value it returned, or the error's description. */
  datatype Outcome<T> = Success(value: T) | Failure(description: string)

  datatype NewChat = NewChat(chatId: string, prompt: string)

  datatype StartResult = StartResult(vm: ChatViewModel, request: Option<CreateChatRequest>, started: Option<NewChat>)

  /**
    `startNewChat(isPrivate:)`: a blank input does nothing; otherwise the
    chat is created (with the prompt as first message unless private), and
    on success the input is cleared and the new id returned with the prompt.
    `created` is the service's answer: the new chat's id or an error.
   */
  function StartNewChat(vm: ChatViewModel, isPrivate: bool, created: Outcome<string>): (r: StartResult)
    ensures IsBlank(vm.inputText) ==> r == StartResult(vm, None, None)
    ensures !IsBlank(vm.inputText) ==>
            r.request == Some(CreateChatRequest("New Chat", if isPrivate then None else Some(vm.inputText)))
    ensures !IsBlank(vm.inputText) && created.Success? ==>
            r.started == Some(NewChat(created.value, vm.inputText)) && r.vm == vm.(inputText := "")
    ensures !IsBlank(vm.inputText) && created.Failure? ==>
            r.started.None? &&
            r.vm == vm.(errorMessage := Some("Failed to create new chat: " + created.description))
  {
    TrimWhitespaceEmptyIffBlank(vm.inputText);
    if TrimWhitespace(vm.inputText) == "" then StartResult(vm, None, None)
    else
      var prompt := vm.inputText;
      var request := CreateChatRequest("New Chat", if isPrivate then None else Some(prompt));
      match created
      case Success(id) => StartResult(vm.(inputText := ""), Some(request), Some(NewChat(id, prompt)))
      case Failure(d) => StartResult(vm.(errorMessage := Some("Failed to create new chat: " + d)), Some(request), None)
  }

  datatype SendResult = SendResult(vm: ChatViewModel, prompt: Option<string>)

  /** The three guards of `sendMessage()`. */
  predicate CanSend(vm: ChatViewModel)
  {
    !IsBlank(vm.inputText) && !vm.isLoading && vm.chatId.Some?
  }

  /**
    The synchronous part of `sendMessage()`: the user's message is appended
    and (unless private) submitted, the input is cleared, and the prompt is
    handed to the streaming task.  Any failed guard leaves everything as it is.
   */
  function SendMessage(vm: ChatViewModel, now: int): (r: SendResult)
    ensures !CanSend(vm) ==> r == SendResult(vm, None)
    ensures CanSend(vm) ==> r.prompt == Some(vm.inputText)
    ensures CanSend(vm) ==> |r.vm.messages| == |vm.messages| + 1 && r.vm.messages[..|vm.messages|] == vm.messages
    ensures CanSend(vm) ==> var m := r.vm.messages[|vm.messages|];
                            m.kind == User && m.content == vm.inputText && !m.hasError && NoToolData(m)
    ensures CanSend(vm) ==> r.vm.inputText == ""
    ensures CanSend(vm) && vm.isPrivateChat ==> r.vm.outbox == vm.outbox
    ensures CanSend(vm) && !vm.isPrivateChat ==>
            r.vm.outbox == vm.outbox + [Submission(r.vm.messages[|vm.messages|], vm.chatId.value)]
    ensures r.vm.isLoading == vm.isLoading && r.vm.isPrivateChat == vm.isPrivateChat && r.vm.chatId == vm.chatId
  {
    TrimWhitespaceEmptyIffBlank(vm.inputText);
    if TrimWhitespace(vm.inputText) == "" || vm.isLoading || vm.chatId.None? then SendResult(vm, None)
    else
      var m := CreateUserMessage(FreshId(vm.nextId), vm.inputText, now);
      var vm1 := Persist(Append(vm, m, true), m);
      SendResult(vm1.(inputText := ""), Some(vm.inputText))
  }

  // ---------------------------------------------------------------------------
  // The fold over the events
  // ---------------------------------------------------------------------------

  /**
    The loop state of `streamResponse`: the view model, the text gathered
    for the open response message, that message's index (standing for both
    `responseMessageId` and `lastResponseIndex`, which are always set
    together) and whether the previous event was a tool event.
   */
  datatype Fold = Fold(vm: ChatViewModel, responseText: string, response: Option<nat>, lastChunkWasToolCall: bool)

  function StartFold(vm: ChatViewModel): Fold
  {
    Fold(vm, "", None, false)
  }

  /** `if let isToolCall = chunk.isToolCall, isToolCall`. */
  predicate IsToolEvent(e: StreamChunkData)
  {
    e.isToolCall == Some(true)
  }

  /**
    The text guard: a chunk is used when present, not blank, and not a
    `done` chunk longer than 100 characters.
   */
  predicate Accepts(e: StreamChunkData)
  {
    e.chunk.Some? && TrimWhitespace(e.chunk.value) != "" && !(e.done == Some(true) && |e.chunk.value| > 100)
  }

  lemma AcceptsIff(e: StreamChunkData)
    ensures Accepts(e) <==> e.chunk.Some? && !IsBlank(e.chunk.value) && (e.done != Some(true) || |e.chunk.value| <= 100)
  {
    if e.chunk.Some? {
      TrimWhitespaceEmptyIffBlank(e.chunk.value);
    }
  }

  /** Each value rendered with `String(describing:)`. */
  function Stringify(m: map<string, Json>, describe: Json -> string): (r: map<string, string>)
    ensures r.Keys == m.Keys
    ensures forall k | k in m :: r[k] == describe(m[k])
  {
    map k | k in m :: describe(m[k])
  }

  /** The number of sources of a tool result: `result["content"]` as a non-empty array of objects. */
  function SourcesCount(result: map<string, Json>): (r: Option<nat>)
    ensures r.Some? <==> "content" in result && result["content"].JArray? && result["content"].items != [] &&
                         forall i :: 0 <= i < |result["content"].items| ==> result["content"].items[i].JObject?
    ensures r.Some? ==> r.value == |result["content"].items| && r.value > 0
  {
    if "content" in result && result["content"].JArray? then
      var items := result["content"].items;
      if items != [] && forall i :: 0 <= i < |items| ==> items[i].JObject? then Some(|items|) else None
    else None
  }

  /** The content of a tool-result message. */
  function ResultSummary(result: map<string, Json>): (r: string)
  {
    match SourcesCount(result)
    case Some(n) => "Found information from " + NatToString(n) + " sources"
    case None => "Tool result received"
  }

  /** The summary names a source count exactly when the result holds a non-empty array of objects. */
  lemma ResultSummaryIff(result: map<string, Json>)
    ensures ResultSummary(result) == "Tool result received" <==> SourcesCount(result).None?
    ensures SourcesCount(result).Some? ==>
            ResultSummary(result) == "Found information from " + NatToString(|result["content"].items|) + " sources"
  {
    if SourcesCount(result).Some? {
      var r := ResultSummary(result);
      assert r[0] == 'F';
    }
  }

  /** The tool-call message `handleToolCallChunk` appends, if the event carries a complete call. */
  predicate HasToolCall(e: StreamChunkData)
  {
    e.toolCallId.Some? && e.toolName.Some? && e.toolArgs.Some?
  }

  predicate HasToolResult(e: StreamChunkData)
  {
    e.toolCallId.Some? && e.toolResult.Some?
  }

  /**
    `handleToolCallChunk(_:)`: appends a tool-call message when the event has
    an id, a name and arguments, then a tool-result message when it has an id
    and a result; each is submitted unless the chat is private or unsaved.
   */
  function HandleToolCallChunk(vm: ChatViewModel, e: StreamChunkData, env: Env): (r: ChatViewModel)
    ensures |r.messages| == |vm.messages| + (if HasToolCall(e) then 1 else 0) + (if HasToolResult(e) then 1 else 0)
    ensures r.messages[..|vm.messages|] == vm.messages
    ensures HasToolCall(e) ==>
            var m := r.messages[|vm.messages|];
            m.kind == ToolCall && m.id == e.toolCallId.value && m.toolCallId == e.toolCallId &&
            m.toolName == e.toolName && m.content == "Tool Call: " + e.toolName.value &&
            m.toolArgs == Some(Stringify(e.toolArgs.value, env.describe)) && !m.hasToolCallAfter
    ensures HasToolResult(e) ==>
            var m := r.messages[|r.messages| - 1];
            m.kind == ToolResult && m.toolCallId == e.toolCallId && m.toolCallApproved == Some(true) &&
            m.content == ResultSummary(e.toolResult.value) &&
            m.toolResult == Some(Stringify(e.toolResult.value, env.describe))
    ensures vm.isPrivateChat || vm.chatId.None? ==> r.outbox == vm.outbox
    ensures |r.outbox| >= |vm.outbox| && r.outbox[..|vm.outbox|] == vm.outbox
    ensures r.isPrivateChat == vm.isPrivateChat && r.chatId == vm.chatId && r.inputText == vm.inputText
    ensures r.isLoading == vm.isLoading && r.errorMessage == vm.errorMessage && r.currentMode == vm.currentMode
  {
    var vm1 :=
      if HasToolCall(e) then
        var m := CreateToolCallMessage(FreshId(vm.nextId), e.toolName.value, Stringify(e.toolArgs.value, env.describe),
                                       env.now, e.toolCallId);
        Persist(Append(vm, m, false), m)
      else vm;
    if HasToolResult(e) then
      var m := CreateToolResultMessage(FreshId(vm1.nextId), ResultSummary(e.toolResult.value), e.toolCallId.value,
                                       Stringify(e.toolResult.value, env.describe), env.now);
      Persist(Append(vm1, m, true), m)
    else vm1
  }

  /** Outside a private chat, every message the handler appends is submitted, in order, and nothing else. */
  lemma HandleToolCallChunkOutbox(vm: ChatViewModel, e: StreamChunkData, env: Env)
    requires !vm.isPrivateChat && vm.chatId.Some?
    ensures var r := HandleToolCallChunk(vm, e, env);
            r.outbox == vm.outbox + seq(|r.messages| - |vm.messages|,
                                        i requires 0 <= i < |r.messages| - |vm.messages| =>
                                          Submission(r.messages[|vm.messages| + i], vm.chatId.value))
  {
  }

  /**
    A tool event: the most recently opened response message (by index) is
    marked as followed by a tool call, the event's messages are appended, and
    the next text event will open a new message.
   */
  function ToolStep(s: Fold, e: StreamChunkData, env: Env): (r: Fold)
    ensures r.lastChunkWasToolCall
    ensures r.responseText == s.responseText && r.response == s.response
    ensures r.vm == HandleToolCallChunk(MarkToolCallAfter(s.vm, s.response), e, env)
  {
    Fold(HandleToolCallChunk(MarkToolCallAfter(s.vm, s.response), e, env), s.responseText, s.response, true)
  }

  /** Sets `hasToolCallAfter` on the message at `index`, when there is one. */
  function MarkToolCallAfter(vm: ChatViewModel, index: Option<nat>): (r: ChatViewModel)
    ensures |r.messages| == |vm.messages|
    ensures forall i | 0 <= i < |vm.messages| ::
              r.messages[i] == if index == Some(i) then vm.messages[i].(hasToolCallAfter := true) else vm.messages[i]
    ensures r.(messages := vm.messages) == vm
  {
    if index.Some? && index.value < |vm.messages| then
      vm.(messages := vm.messages[index.value := vm.messages[index.value].(hasToolCallAfter := true)])
    else vm
  }

  /**
    A text event: ignored unless accepted; after a tool event, or when no
    response message exists yet, it opens a new AI message in the current
    mode; otherwise its text is added to the open message.
   */
  function TextStep(s: Fold, e: StreamChunkData, env: Env): (r: Fold)
    ensures !Accepts(e) ==> r == s
    ensures Accepts(e) ==> !r.lastChunkWasToolCall && r.response.Some?
    ensures Accepts(e) && (s.lastChunkWasToolCall || s.response.None?) ==>
            r.responseText == e.chunk.value && r.response == Some(|s.vm.messages|) &&
            r.vm.messages == s.vm.messages + [CreateAIMessage(FreshId(s.vm.nextId), e.chunk.value, s.vm.currentMode, env.now)]
    ensures Accepts(e) && !s.lastChunkWasToolCall && s.response.Some? ==>
            r.responseText == s.responseText + e.chunk.value && r.response == s.response &&
            |r.vm.messages| == |s.vm.messages|
    ensures r.vm.outbox == s.vm.outbox && r.vm.isPrivateChat == s.vm.isPrivateChat && r.vm.chatId == s.vm.chatId
    ensures r.vm.inputText == s.vm.inputText && r.vm.isLoading == s.vm.isLoading
    ensures r.vm.errorMessage == s.vm.errorMessage && r.vm.currentMode == s.vm.currentMode
  {
    if !Accepts(e) then s
    else
      var text := e.chunk.value;
      if s.lastChunkWasToolCall || s.response.None? then
        var m := CreateAIMessage(FreshId(s.vm.nextId), text, s.vm.currentMode, env.now);
        Fold(Append(s.vm, m, true), text, Some(|s.vm.messages|), false)
      else
        var responseText := s.responseText + text;
        var i := s.response.value;
        var vm := if i < |s.vm.messages| then s.vm.(messages := s.vm.messages[i := s.vm.messages[i].(content := responseText)])
                  else s.vm;
        Fold(vm, responseText, s.response, s.lastChunkWasToolCall)
  }

  /** One iteration of the `streamResponse` loop. */
  function Step(s: Fold, e: StreamChunkData, env: Env): Fold
  {
    if IsToolEvent(e) then ToolStep(s, e, env) else TextStep(s, e, env)
  }

  /** The `streamResponse` loop over every event, in order. */
  function FoldEvents(s: Fold, events: seq<StreamChunkData>, env: Env): Fold
    decreases |events|
  {
    if events == [] then s else FoldEvents(Step(s, events[0], env), events[1..], env)
  }

  /** Folding over two lists in a row is folding over their concatenation. */
  lemma {:induction false} FoldEventsAppend(s: Fold, a: seq<StreamChunkData>, b: seq<StreamChunkData>, env: Env)
    ensures FoldEvents(s, a + b, env) == FoldEvents(FoldEvents(s, a, env), b, env)
    decreases |a|
  {
    if a != [] {
      assert (a + b)[1..] == a[1..] + b;
      FoldEventsAppend(Step(s, a[0], env), a[1..], b, env);
    } else {
      assert a + b == b;
    }
  }

  // ---------------------------------------------------------------------------
  // streamResponse
  // ---------------------------------------------------------------------------

  const CompleteResponseError := "Sorry, there was an error getting a complete response."
  const NoResponseError := "Sorry, there was an error getting a response."
  const RetryMessage := "Unable to get a response. Please try again."

  /**
    The error branch of `streamResponse`: the open response message, if
    any, is replaced by an apology and flagged; otherwise an error message
    is appended (and not submitted).
   */
  function RewriteOnError(s: Fold, env: Env): (r: ChatViewModel)
    ensures r.errorMessage == Some(RetryMessage)
    ensures r.outbox == s.vm.outbox
    ensures s.response.Some? && s.response.value < |s.vm.messages| ==>
            r.messages == s.vm.messages[s.response.value :=
              s.vm.messages[s.response.value].(content := CompleteResponseError, hasError := true)]
    ensures !(s.response.Some? && s.response.value < |s.vm.messages|) ==>
            r.messages == s.vm.messages + [CreateErrorMessage(FreshId(s.vm.nextId), NoResponseError, env.now)]
  {
    var vm := s.vm.(errorMessage := Some(RetryMessage));
    if s.response.Some? && s.response.value < |vm.messages| then
      var i := s.response.value;
      vm.(messages := vm.messages[i := vm.messages[i].(content := CompleteResponseError, hasError := true)])
    else
      Append(vm, CreateErrorMessage(FreshId(vm.nextId), NoResponseError, env.now), true)
  }

  /** After a clean finish, the response message is submitted unless private or unsaved. */
  function SaveResponse(s: Fold): (r: ChatViewModel)
    ensures r.(outbox := s.vm.outbox) == s.vm
    ensures s.vm.isPrivateChat ==> r.outbox == s.vm.outbox
    ensures !s.vm.isPrivateChat && s.vm.chatId.Some? && s.response.Some? && s.response.value < |s.vm.messages| ==>
            r.outbox == s.vm.outbox + [Submission(s.vm.messages[s.response.value], s.vm.chatId.value)]
    ensures !(s.response.Some? && s.response.value < |s.vm.messages|) ==> r == s.vm
  {
    if s.response.Some? && s.response.value < |s.vm.messages| then Persist(s.vm, s.vm.messages[s.response.value])
    else s.vm
  }

  /**
    `streamResponse(prompt:)`: streams with the chat id as thread id and no
    resource id, folds every event into the messages, then either submits
    the response message or, when the stream failed, applies the error
    rewrite.  The `error` field of the events is not looked at.
   */
  function StreamResponse(vm: ChatViewModel, prompt: string, response: HttpResponse, env: Env): (r: ChatViewModel)
    ensures !r.isLoading
    ensures r.isPrivateChat == vm.isPrivateChat && r.chatId == vm.chatId
    ensures r.inputText == vm.inputText && r.currentMode == vm.currentMode
    ensures var failure := StreamChatResponse(prompt, vm.chatId, None, response, env.parse).failure;
            (failure.Some? ==> r.errorMessage == Some(RetryMessage)) &&
            (failure.None? ==> r.errorMessage.None?)
  {
    var outcome := StreamChatResponse(prompt, vm.chatId, None, response, env.parse);
    var s := FoldEvents(StartFold(vm.(isLoading := true, errorMessage := None)), outcome.events, env);
    FoldKeepsSettings(StartFold(vm.(isLoading := true, errorMessage := None)), outcome.events, env);
    var vm1 := if outcome.failure.None? then SaveResponse(s) else RewriteOnError(s, env);
    vm1.(isLoading := false)
  }

  /** `sendMessage()` followed by the streaming task it starts. */
  function SendAndStream(vm: ChatViewModel, response: HttpResponse, env: Env): (r: ChatViewModel)
    ensures !CanSend(vm) ==> r == vm
    ensures CanSend(vm) ==> !r.isLoading && r.inputText == ""
  {
    var sent := SendMessage(vm, env.now);
    match sent.prompt
    case None => sent.vm
    case Some(prompt) => StreamResponse(sent.vm, prompt, response, env)
  }

  /** The fold never touches the settings, the flags or the error text. */
  lemma {:induction false} FoldKeepsSettings(s: Fold, events: seq<StreamChunkData>, env: Env)
    ensures var r := FoldEvents(s, events, env).vm;
            r.isPrivateChat == s.vm.isPrivateChat && r.chatId == s.vm.chatId &&
            r.inputText == s.vm.inputText && r.currentMode == s.vm.currentMode &&
            r.isLoading == s.vm.isLoading && r.errorMessage == s.vm.errorMessage
    decreases |events|
  {
    if events != [] {
      FoldKeepsSettings(Step(s, events[0], env), events[1..], env);
    }
  }

  // ---------------------------------------------------------------------------
  // loadMessagesAndSendInitialIfNeeded
  // ---------------------------------------------------------------------------

  /** How the inline loop of the initial-message task ended. */
  datatype LoopEnd = Exhausted | StoppedAtDone | Failed(description: string)

  datatype LoopResult = LoopResult(fold: Fold, end: LoopEnd)

  /**
    The inline copy of the fold: an event carrying `error` ends the loop with
    that error, tool events are handled as in `streamResponse`, and the
    loop stops right after the first event marked `done`.
   */
  function InitialLoop(s: Fold, events: seq<StreamChunkData>, env: Env): LoopResult
    decreases |events|
  {
    if events == [] then LoopResult(s, Exhausted)
    else
      var e := events[0];
      if e.error.Some? then LoopResult(s, Failed(e.error.value))
      else if IsToolEvent(e) then InitialLoop(ToolStep(s, e, env), events[1..], env)
      else
        var s1 := TextStep(s, e, env);
        if e.done == Some(true) then LoopResult(s1, StoppedAtDone)
        else InitialLoop(s1, events[1..], env)
  }

  /**
    The loop stops at a done event or fails with the error of an event that
    carries one; it runs out only when no event carries an error.
   */
  lemma {:induction false} InitialLoopEnd(s: Fold, events: seq<StreamChunkData>, env: Env)
    ensures var r := InitialLoop(s, events, env);
            r.end.StoppedAtDone? ==> exists i :: 0 <= i < |events| && events[i].done == Some(true)
    ensures var r := InitialLoop(s, events, env);
            r.end.Failed? ==> exists i :: 0 <= i < |events| && events[i].error == Some(r.end.description)
    ensures InitialLoop(s, events, env).end.Exhausted? ==> forall i :: 0 <= i < |events| ==> events[i].error.None?
    decreases |events|
  {
    if events != [] && events[0].error.None? {
      var e := events[0];
      var next := if IsToolEvent(e) then ToolStep(s, e, env) else TextStep(s, e, env);
      if IsToolEvent(e) || e.done != Some(true) {
        InitialLoopEnd(next, events[1..], env);
        assert InitialLoop(s, events, env) == InitialLoop(next, events[1..], env);
        assert forall i :: 0 <= i < |events[1..]| ==> events[1..][i] == events[i + 1];
      }
    }
  }

  /** The result of `chatService.getMessages(for:)`. */
  datatype Loaded = Loaded(messages: seq<Message>) | LoadFailed(description: string)

  /** The loaded history is exactly one user message. */
  predicate IsInitialHistory(messages: seq<Message>)
  {
    |messages| == 1 && messages[0].kind == User
  }

  /**
    The streaming task started for the first message of a new chat.  Whether
    the chat is private is read once, before streaming; a failure is seen
    only when the loop runs out of events.
   */
  function InitialStream(vm: ChatViewModel, id: string, prompt: string, response: HttpResponse, env: Env): (r: ChatViewModel)
    ensures !r.isLoading
    ensures r.isPrivateChat == vm.isPrivateChat && r.chatId == vm.chatId
    ensures vm.isPrivateChat ==> r.outbox == vm.outbox
    // A failure, either an event's error or a thrown one once the events run
    // out, appends `Error: d` after the folded messages and submits only it.
    ensures var outcome := StreamChatResponse(prompt, Some(id), None, response, env.parse);
            var loop := InitialLoop(StartFold(vm.(isLoading := true, errorMessage := None)), outcome.events, env);
            var s := loop.fold.vm;
            var d := if loop.end.Failed? then loop.end.description
                     else if outcome.failure.Some? then env.describeError(outcome.failure.value) else "";
            var m := CreateErrorMessage(FreshId(s.nextId), "Error: " + d, env.now);
            loop.end.Failed? || (loop.end.Exhausted? && outcome.failure.Some?) ==>
              r.messages == s.messages + [m] &&
              r.errorMessage == Some("Failed to get response: " + d) &&
              r.outbox == s.outbox + (if vm.isPrivateChat then [] else [Submission(m, id)])
    // A clean finish keeps the folded messages and submits the response
    // message unless the chat is private.
    ensures var outcome := StreamChatResponse(prompt, Some(id), None, response, env.parse);
            var loop := InitialLoop(StartFold(vm.(isLoading := true, errorMessage := None)), outcome.events, env);
            var f := loop.fold;
            !(loop.end.Failed? || (loop.end.Exhausted? && outcome.failure.Some?)) ==>
              r.messages == f.vm.messages && r.errorMessage.None? &&
              r.outbox == f.vm.outbox +
                (if !vm.isPrivateChat && f.response.Some? && f.response.value < |f.vm.messages|
                 then [Submission(f.vm.messages[f.response.value], id)] else [])
  {
    var outcome := StreamChatResponse(prompt, Some(id), None, response, env.parse);
    var start := StartFold(vm.(isLoading := true, errorMessage := None));
    var loop := InitialLoop(start, outcome.events, env);
    InitialLoopKeepsSettings(start, outcome.events, env);
    InitialLoopKeepsOutbox(start, outcome.events, env);
    var end := if loop.end.Exhausted? && outcome.failure.Some? then Failed(env.describeError(outcome.failure.value))
               else loop.end;
    FinishInitial(loop.fold, end, vm.isPrivateChat, id, env).(isLoading := false)
  }

  /**
    What the initial-message task does once its loop is over: on a failure
    it reports the error and appends (and, unless private, submits) an
    `Error: ` message; otherwise it submits the response message, if any,
    unless private.
   */
  function FinishInitial(s: Fold, end: LoopEnd, isChatPrivate: bool, id: string, env: Env): (r: ChatViewModel)
    ensures r.isPrivateChat == s.vm.isPrivateChat && r.chatId == s.vm.chatId
    ensures end.Failed? ==>
            var m := CreateErrorMessage(FreshId(s.vm.nextId), "Error: " + end.description, env.now);
            r.messages == s.vm.messages + [m] &&
            r.errorMessage == Some("Failed to get response: " + end.description) &&
            r.outbox == s.vm.outbox + (if isChatPrivate then [] else [Submission(m, id)])
    ensures !end.Failed? ==>
            r.messages == s.vm.messages && r.errorMessage == s.vm.errorMessage &&
            r.outbox == s.vm.outbox +
              (if !isChatPrivate && s.response.Some? && s.response.value < |s.vm.messages|
               then [Submission(s.vm.messages[s.response.value], id)] else [])
  {
    match end
    case Failed(d) =>
      var m := CreateErrorMessage(FreshId(s.vm.nextId), "Error: " + d, env.now);
      var v := Append(s.vm.(errorMessage := Some("Failed to get response: " + d)), m, true);
      if !isChatPrivate then v.(outbox := v.outbox + [Submission(m, id)]) else v
    case _ =>
      if s.response.Some? && s.response.value < |s.vm.messages| && !isChatPrivate then
        s.vm.(outbox := s.vm.outbox + [Submission(s.vm.messages[s.response.value], id)])
      else s.vm
  }

  /**
    `loadMessagesAndSendInitialIfNeeded()`: without a chat id nothing
    happens; a failed load reports the error; otherwise the history replaces
    the messages and, when it is exactly one user message, that message's
    text is streamed as the prompt.
   */
  function LoadAndSendInitial(vm: ChatViewModel, loaded: Loaded, response: HttpResponse, env: Env): (r: ChatViewModel)
    ensures vm.chatId.None? ==> r == vm
    ensures vm.chatId.Some? && loaded.LoadFailed? ==>
            r == vm.(errorMessage := Some("Failed to load messages: " + loaded.description))
    ensures vm.chatId.Some? && loaded.Loaded? && !IsInitialHistory(loaded.messages) ==>
            r == vm.(messages := loaded.messages)
    ensures vm.chatId.Some? && loaded.Loaded? && IsInitialHistory(loaded.messages) ==>
            !r.isLoading && |r.messages| >= 1 && r.messages[0] == loaded.messages[0]
    ensures vm.chatId.Some? && loaded.Loaded? && IsInitialHistory(loaded.messages) ==>
            r == InitialStream(vm.(messages := loaded.messages), vm.chatId.value,
                               loaded.messages[0].content, response, env)
  {
    match vm.chatId
    case None => vm
    case Some(id) =>
      match loaded
      case LoadFailed(d) => vm.(errorMessage := Some("Failed to load messages: " + d))
      case Loaded(history) =>
        var vm1 := vm.(messages := history);
        if IsInitialHistory(history) then
          var r := InitialStream(vm1, id, history[0].content, response, env);
          InitialStreamKeepsHistory(vm1, id, history[0].content, response, env);
          r
        else vm1
  }

  /** The private `loadMessages()`: replaces the messages, or reports the failure. */
  function LoadMessages(vm: ChatViewModel, loaded: Loaded): (r: ChatViewModel)
    ensures vm.chatId.None? ==> r == vm
    ensures vm.chatId.Some? && loaded.Loaded? ==> r == vm.(messages := loaded.messages)
    ensures vm.chatId.Some? && loaded.LoadFailed? ==>
            r == vm.(errorMessage := Some("Failed to load messages: " + loaded.description))
  {
    if vm.chatId.None? then vm
    else
      match loaded
      case Loaded(history) => vm.(messages := history)
      case LoadFailed(d) => vm.(errorMessage := Some("Failed to load messages: " + d))
  }

  // ---------------------------------------------------------------------------
  // Frame lemmas for the loops
  // ---------------------------------------------------------------------------

  /**
    The first `n` messages are out of the fold's reach: they exist, and the
    open response message, if any, lies after them.
   */
  predicate BeyondReach(s: Fold, n: nat)
  {
    n <= |s.vm.messages| && (s.response.None? || s.response.value >= n)
  }

  /** A tool step leaves every message before the reach untouched. */
  lemma ToolStepKeepsPrefix(s: Fold, e: StreamChunkData, env: Env, n: nat)
    requires BeyondReach(s, n)
    ensures BeyondReach(ToolStep(s, e, env), n)
    ensures ToolStep(s, e, env).vm.messages[..n] == s.vm.messages[..n]
  {
    var marked := MarkToolCallAfter(s.vm, s.response);
    assert marked.messages[..n] == s.vm.messages[..n];
    var r := HandleToolCallChunk(marked, e, env);
    assert r.messages[..n] == r.messages[..|marked.messages|][..n];
  }

  /** A text step leaves every message before the reach untouched. */
  lemma TextStepKeepsPrefix(s: Fold, e: StreamChunkData, env: Env, n: nat)
    requires BeyondReach(s, n)
    ensures BeyondReach(TextStep(s, e, env), n)
    ensures TextStep(s, e, env).vm.messages[..n] == s.vm.messages[..n]
  {
    var r := TextStep(s, e, env);
    if Accepts(e) {
      if s.lastChunkWasToolCall || s.response.None? {
        var m := CreateAIMessage(FreshId(s.vm.nextId), e.chunk.value, s.vm.currentMode, env.now);
        assert r.vm.messages == s.vm.messages + [m];
        assert (s.vm.messages + [m])[..n] == s.vm.messages[..n];
      } else {
        var i := s.response.value;
        assert i >= n;
        assert r.vm.messages[..n] == s.vm.messages[..n] by {
          if i < |s.vm.messages| {
            assert r.vm.messages == s.vm.messages[i := s.vm.messages[i].(content := s.responseText + e.chunk.value)];
          }
        }
      }
    }
  }

  /** A step leaves every message before the reach untouched. */
  lemma StepKeepsPrefix(s: Fold, e: StreamChunkData, env: Env, n: nat)
    requires BeyondReach(s, n)
    ensures BeyondReach(Step(s, e, env), n)
    ensures Step(s, e, env).vm.messages[..n] == s.vm.messages[..n]
  {
    if IsToolEvent(e) {
      ToolStepKeepsPrefix(s, e, env, n);
    } else {
      TextStepKeepsPrefix(s, e, env, n);
    }
  }

  lemma {:induction false} FoldKeepsPrefix(s: Fold, events: seq<StreamChunkData>, env: Env, n: nat)
    requires BeyondReach(s, n)
    ensures BeyondReach(FoldEvents(s, events, env), n)
    ensures FoldEvents(s, events, env).vm.messages[..n] == s.vm.messages[..n]
    decreases |events|
  {
    if events != [] {
      StepKeepsPrefix(s, events[0], env, n);
      FoldKeepsPrefix(Step(s, events[0], env), events[1..], env, n);
    }
  }

  lemma {:induction false} InitialLoopKeepsSettings(s: Fold, events: seq<StreamChunkData>, env: Env)
    ensures var r := InitialLoop(s, events, env).fold.vm;
            r.isPrivateChat == s.vm.isPrivateChat && r.chatId == s.vm.chatId &&
            r.inputText == s.vm.inputText && r.currentMode == s.vm.currentMode &&
            r.errorMessage == s.vm.errorMessage
    decreases |events|
  {
    if events != [] && events[0].error.None? {
      var e := events[0];
      if IsToolEvent(e) {
        InitialLoopKeepsSettings(ToolStep(s, e, env), events[1..], env);
      } else if e.done != Some(true) {
        InitialLoopKeepsSettings(TextStep(s, e, env), events[1..], env);
      }
    }
  }

  /** A step submits nothing when the chat is private. */
  lemma StepKeepsOutboxWhenPrivate(s: Fold, e: StreamChunkData, env: Env)
    requires s.vm.isPrivateChat
    ensures Step(s, e, env).vm.outbox == s.vm.outbox
    ensures Step(s, e, env).vm.isPrivateChat
  {
  }

  lemma {:induction false} InitialLoopKeepsOutbox(s: Fold, events: seq<StreamChunkData>, env: Env)
    ensures s.vm.isPrivateChat ==> InitialLoop(s, events, env).fold.vm.outbox == s.vm.outbox
    decreases |events|
  {
    if s.vm.isPrivateChat && events != [] && events[0].error.None? {
      var e := events[0];
      StepKeepsOutboxWhenPrivate(s, e, env);
      if IsToolEvent(e) {
        InitialLoopKeepsOutbox(ToolStep(s, e, env), events[1..], env);
      } else if e.done != Some(true) {
        InitialLoopKeepsOutbox(TextStep(s, e, env), events[1..], env);
      }
    }
  }

  lemma {:induction false} InitialLoopKeepsPrefix(s: Fold, events: seq<StreamChunkData>, env: Env, n: nat)
    requires BeyondReach(s, n)
    ensures BeyondReach(InitialLoop(s, events, env).fold, n)
    ensures InitialLoop(s, events, env).fold.vm.messages[..n] == s.vm.messages[..n]
    decreases |events|
  {
    if events != [] && events[0].error.None? {
      var e := events[0];
      StepKeepsPrefix(s, e, env, n);
      if IsToolEvent(e) {
        InitialLoopKeepsPrefix(ToolStep(s, e, env), events[1..], env, n);
      } else if e.done != Some(true) {
        InitialLoopKeepsPrefix(TextStep(s, e, env), events[1..], env, n);
      }
    }
  }

  /** The initial task only adds messages: the loaded history is left as it was. */
  lemma InitialStreamKeepsHistory(vm: ChatViewModel, id: string, prompt: string, response: HttpResponse, env: Env)
    ensures |InitialStream(vm, id, prompt, response, env).messages| >= |vm.messages|
    ensures InitialStream(vm, id, prompt, response, env).messages[..|vm.messages|] == vm.messages
  {
    var outcome := StreamChatResponse(prompt, Some(id), None, response, env.parse);
    var start := StartFold(vm.(isLoading := true, errorMessage := None));
    InitialLoopKeepsPrefix(start, outcome.events, env, |vm.messages|);
    var r := InitialStream(vm, id, prompt, response, env);
    var s := InitialLoop(start, outcome.events, env).fold;
    assert r.messages[..|vm.messages|] == s.vm.messages[..|vm.messages|];
  }
}
