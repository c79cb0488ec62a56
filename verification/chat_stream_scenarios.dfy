/**
  Worked streams, end to end from the server's lines to the message list:
  the answer that is split by a tool call and then repeated by the final
  event, and the `error` field that only the initial-message loop reads.
 */
module ChatStreamScenarios {
  import opened Wrappers
  import opened Text
  import opened JsonValues
  import opened StreamChunks
  import opened ChatMessages
  import opened AgentsService
  import opened ChatViewModels

  const CallPayload := "{\"toolCallId\":\"c1\",\"toolName\":\"search\",\"args\":{}}"
  const ResultPayload := "{\"toolCallId\":\"c1\",\"result\":{}}"
  const ErrorPayload := "{\"error\":\"boom\"}"

  /** A parser that knows the three payloads of these scenarios. */
  function ScenarioParse(s: string): Option<Json>
  {
    if s == CallPayload then
      Some(JObject(map["toolCallId" := JString("c1"), "toolName" := JString("search"), "args" := JObject(map[])]))
    else if s == ResultPayload then
      Some(JObject(map["toolCallId" := JString("c1"), "result" := JObject(map[])]))
    else if s == ErrorPayload then
      Some(JObject(map["error" := JString("boom")]))
    else None
  }

  function ScenarioEnv(): Env
  {
    Env(0, ScenarioParse, _ => "", _ => "")
  }

  /** Text, a tool call, its result, more text, and the end marker. */
  const ToolLines: seq<string> :=
    [Quoted("Let me check"), "9:" + CallPayload, "a:" + ResultPayload, Quoted("Found it"), "e:{}"]

  /** The `0:` line the server sends for a piece of text. */
  function Quoted(text: string): string
  {
    "0:\"" + text + "\""
  }

  function OkResponse(lines: seq<string>): HttpResponse
  {
    HttpResponse(Some(200), None, lines, None)
  }

  /** A quoted `0:` line decodes to its text, which is also what it adds to the full text. */
  lemma QuotedTextLine(text: string, threadId: Option<string>, resourceId: Option<string>, parse: string -> Option<Json>)
    requires text != [] && !IsQuote(text[0]) && !IsQuote(text[|text| - 1])
    ensures LineEvents(Quoted(text), threadId, resourceId, parse)
            == [Memberwise(Some(text), Some(false), None, threadId, resourceId)]
    ensures TextOf(Quoted(text)) == text
  {
    CleanContentQuoted(text);
    TextLineEvents(Quoted(text), threadId, resourceId, parse);
  }

  lemma CallTitle(name: string)
    requires name == "search"
    ensures "Tool Call: " + name == "Tool Call: search"
  {
  }

  lemma CallLine(threadId: Option<string>)
    ensures LineEvents("9:" + CallPayload, threadId, None, ScenarioParse)
            == [Memberwise(Some("Tool Call: search"), Some(false), None, threadId, None,
                           Some(true), Some("c1"), Some("search"), Some(map[]))]
    ensures TextOf("9:" + CallPayload) == ""
  {
    var l := "9:" + CallPayload;
    ClassifyTag(l);
    assert l[2..] == CallPayload;
    var o := map["toolCallId" := JString("c1"), "toolName" := JString("search"), "args" := JObject(map[])];
    assert ScenarioParse(CallPayload) == Some(JObject(o));
    assert DecodeLine(l, threadId, None, ScenarioParse) == Some(ToolCallEvent(o, threadId, None));
    assert StringOrEmpty(o, "toolName") == "search";
    assert StringOrEmpty(o, "toolCallId") == "c1";
    assert ObjectOrEmpty(o, "args") == map[];
    CallTitle(StringOrEmpty(o, "toolName"));
  }

  lemma ResultLine(threadId: Option<string>)
    ensures LineEvents("a:" + ResultPayload, threadId, None, ScenarioParse)
            == [Memberwise(Some("Tool Result"), Some(false), None, threadId, None,
                           Some(true), Some("c1"), None, None, Some(map[]))]
    ensures TextOf("a:" + ResultPayload) == ""
  {
    var l := "a:" + ResultPayload;
    ClassifyTag(l);
    assert l[2..] == ResultPayload;
    assert ResultPayload != CallPayload by { assert |ResultPayload| != |CallPayload|; }
    var o := map["toolCallId" := JString("c1"), "result" := JObject(map[])];
    assert ScenarioParse(ResultPayload) == Some(JObject(o));
    assert DecodeLine(l, threadId, None, ScenarioParse) == Some(ToolResultEvent(o, threadId, None));
    assert StringOrEmpty(o, "toolCallId") == "c1";
    assert ObjectOrEmpty(o, "result") == map[];
  }

  lemma EndLine(threadId: Option<string>)
    ensures LineEvents("e:{}", threadId, None, ScenarioParse) == []
    ensures TextOf("e:{}") == ""
  {
    ClassifyTag("e:{}");
  }

  lemma DecodeCons(line: string, rest: seq<string>, threadId: Option<string>, resourceId: Option<string>,
                   parse: string -> Option<Json>)
    ensures DecodeLines([line] + rest, threadId, resourceId, parse)
            == LineEvents(line, threadId, resourceId, parse) + DecodeLines(rest, threadId, resourceId, parse)
  {
    assert ([line] + rest)[0] == line && ([line] + rest)[1..] == rest;
    DecodeLinesCons([line] + rest, threadId, resourceId, parse);
  }

  lemma FullTextCons(line: string, rest: seq<string>)
    ensures FullText([line] + rest) == TextOf(line) + FullText(rest)
  {
    assert ([line] + rest)[1..] == rest;
  }

  /** The tool stream's lines, one at a time. */
  lemma ToolLinesCons()
    ensures ToolLines == [Quoted("Let me check")] + (["9:" + CallPayload] + (["a:" + ResultPayload] +
                         ([Quoted("Found it")] + (["e:{}"] + []))))
  {
  }

  /** The text the tool stream's lines add up to, from the text each line contributes. */
  lemma JoinTexts(t0: string, t1: string, t2: string, t3: string, t4: string)
    requires t0 == "Let me check" && t1 == "" && t2 == "" && t3 == "Found it" && t4 == ""
    ensures t0 + (t1 + (t2 + (t3 + (t4 + "")))) == "Let me checkFound it"
  {
  }

  lemma JoinEvents<T>(x0: T, x1: T, x2: T, x3: T)
    ensures [x0] + ([x1] + ([x2] + ([x3] + ([] + [])))) == [x0, x1, x2, x3]
  {
  }

  lemma ToolLinesDecoded(threadId: Option<string>)
    ensures DecodeLines(ToolLines, threadId, None, ScenarioParse)
            == [Memberwise(Some("Let me check"), Some(false), None, threadId, None),
                Memberwise(Some("Tool Call: search"), Some(false), None, threadId, None,
                           Some(true), Some("c1"), Some("search"), Some(map[])),
                Memberwise(Some("Tool Result"), Some(false), None, threadId, None,
                           Some(true), Some("c1"), None, None, Some(map[])),
                Memberwise(Some("Found it"), Some(false), None, threadId, None)]
  {
    var a, b, c, d, e := Quoted("Let me check"), "9:" + CallPayload, "a:" + ResultPayload, Quoted("Found it"), "e:{}";
    var r4 := [e] + [];
    var r3 := [d] + r4;
    var r2 := [c] + r3;
    var r1 := [b] + r2;
    ToolLinesCons();
    DecodeCons(a, r1, threadId, None, ScenarioParse);
    DecodeCons(b, r2, threadId, None, ScenarioParse);
    DecodeCons(c, r3, threadId, None, ScenarioParse);
    DecodeCons(d, r4, threadId, None, ScenarioParse);
    DecodeCons(e, [], threadId, None, ScenarioParse);
    QuotedTextLine("Let me check", threadId, None, ScenarioParse);
    CallLine(threadId);
    ResultLine(threadId);
    QuotedTextLine("Found it", threadId, None, ScenarioParse);
    EndLine(threadId);
    JoinEvents(Memberwise(Some("Let me check"), Some(false), None, threadId, None),
               Memberwise(Some("Tool Call: search"), Some(false), None, threadId, None,
                          Some(true), Some("c1"), Some("search"), Some(map[])),
               Memberwise(Some("Tool Result"), Some(false), None, threadId, None,
                          Some(true), Some("c1"), None, None, Some(map[])),
               Memberwise(Some("Found it"), Some(false), None, threadId, None));
  }

  lemma ToolLinesText()
    ensures FullText(ToolLines) == "Let me checkFound it"
  {
    var a, b, c, d, e := Quoted("Let me check"), "9:" + CallPayload, "a:" + ResultPayload, Quoted("Found it"), "e:{}";
    var r4 := [e] + [];
    var r3 := [d] + r4;
    var r2 := [c] + r3;
    var r1 := [b] + r2;
    ToolLinesCons();
    FullTextCons(a, r1);
    FullTextCons(b, r2);
    FullTextCons(c, r3);
    FullTextCons(d, r4);
    FullTextCons(e, []);
    QuotedTextLine("Let me check", None, None, ScenarioParse);
    QuotedTextLine("Found it", None, None, ScenarioParse);
    CallLine(None);
    ResultLine(None);
    EndLine(None);
    JoinTexts(TextOf(a), TextOf(b), TextOf(c), TextOf(d), TextOf(e));
  }

  /** The decoder's view of the tool stream: four line events and the final event with the whole text. */
  lemma ToolLinesEvents(threadId: Option<string>)
    ensures var events := StreamChatResponse("q", threadId, None, OkResponse(ToolLines), ScenarioParse).events;
            events == [Memberwise(Some("Let me check"), Some(false), None, threadId, None),
                       Memberwise(Some("Tool Call: search"), Some(false), None, threadId, None,
                                  Some(true), Some("c1"), Some("search"), Some(map[])),
                       Memberwise(Some("Tool Result"), Some(false), None, threadId, None,
                                  Some(true), Some("c1"), None, None, Some(map[])),
                       Memberwise(Some("Found it"), Some(false), None, threadId, None),
                       Memberwise(Some("Let me checkFound it"), Some(true), None, threadId, None)]
  {
    ToolLinesDecoded(threadId);
    ToolLinesText();
  }

  /** The events the tool stream decodes to: four line events and the final event. */
  function CheckEvent(threadId: Option<string>): StreamChunkData
  {
    Memberwise(Some("Let me check"), Some(false), None, threadId, None)
  }

  function CallEvent(threadId: Option<string>): StreamChunkData
  {
    Memberwise(Some("Tool Call: search"), Some(false), None, threadId, None, Some(true), Some("c1"), Some("search"), Some(map[]))
  }

  function ResultEvent(threadId: Option<string>): StreamChunkData
  {
    Memberwise(Some("Tool Result"), Some(false), None, threadId, None, Some(true), Some("c1"), None, None, Some(map[]))
  }

  function FoundEvent(threadId: Option<string>): StreamChunkData
  {
    Memberwise(Some("Found it"), Some(false), None, threadId, None)
  }

  function AnswerEvent(threadId: Option<string>): StreamChunkData
  {
    Memberwise(Some("Let me checkFound it"), Some(true), None, threadId, None)
  }

  function ToolEvents(threadId: Option<string>): seq<StreamChunkData>
  {
    [CheckEvent(threadId), CallEvent(threadId), ResultEvent(threadId), FoundEvent(threadId), AnswerEvent(threadId)]
  }

  lemma ToolStreamOutcome(threadId: Option<string>)
    ensures StreamChatResponse("q", threadId, None, OkResponse(ToolLines), ScenarioParse).failure.None?
    ensures StreamChatResponse("q", threadId, None, OkResponse(ToolLines), ScenarioParse).events == ToolEvents(threadId)
  {
    ToolLinesEvents(threadId);
  }

  lemma FoldFive(s: Fold, events: seq<StreamChunkData>, env: Env)
    requires |events| == 5
    ensures FoldEvents(s, events, env)
            == Step(Step(Step(Step(Step(s, events[0], env), events[1], env), events[2], env), events[3], env), events[4], env)
  {
    var s1 := Step(s, events[0], env);
    var s2 := Step(s1, events[1], env);
    var s3 := Step(s2, events[2], env);
    var s4 := Step(s3, events[3], env);
    var s5 := Step(s4, events[4], env);
    assert FoldEvents(s4, events[4..], env) == FoldEvents(s5, [], env) by { assert events[4..][1..] == []; }
    assert FoldEvents(s3, events[3..], env) == FoldEvents(s4, events[4..], env) by { assert events[3..][1..] == events[4..]; }
    assert FoldEvents(s2, events[2..], env) == FoldEvents(s3, events[3..], env) by { assert events[2..][1..] == events[3..]; }
    assert FoldEvents(s1, events[1..], env) == FoldEvents(s2, events[2..], env) by { assert events[1..][1..] == events[2..]; }
  }

  /** The four messages the tool stream's fold appends. */
  predicate FirstAnswer(m: Message)
  {
    m.kind == Ai && m.content == "Let me check" && m.hasToolCallAfter
  }

  predicate SearchCall(m: Message)
  {
    m.kind == ToolCall && m.content == "Tool Call: search" && m.id == "c1" && m.toolCallId == Some("c1")
  }

  predicate EmptyResult(m: Message)
  {
    m.kind == ToolResult && m.content == "Tool result received" && m.toolCallId == Some("c1")
  }

  predicate RepeatedAnswer(m: Message)
  {
    m.kind == Ai && m.content == "Found itLet me checkFound it" && !m.hasToolCallAfter
  }

  predicate ToolStreamShape(messages: seq<Message>, n: nat)
  {
    |messages| == n + 4 && FirstAnswer(messages[n]) && SearchCall(messages[n + 1]) &&
    EmptyResult(messages[n + 2]) && RepeatedAnswer(messages[n + 3])
  }

  /** A chunk whose first character is not whitespace passes the text guard unless it is a long `done` chunk. */
  lemma AcceptsWord(e: StreamChunkData)
    requires e.chunk.Some? && e.chunk.value != [] && !IsWhitespace(e.chunk.value[0])
    requires e.done != Some(true) || |e.chunk.value| <= 100
    ensures Accepts(e)
  {
    TrimWhitespaceEmptyIffBlank(e.chunk.value);
  }

  /** An accepted text event after a tool event, or with nothing open, opens a new AI message. */
  lemma OpenStep(s: Fold, e: StreamChunkData, env: Env)
    requires !IsToolEvent(e) && Accepts(e) && (s.lastChunkWasToolCall || s.response.None?)
    ensures var r := Step(s, e, env);
            |r.vm.messages| == |s.vm.messages| + 1 && r.vm.messages[..|s.vm.messages|] == s.vm.messages &&
            r.vm.messages[|s.vm.messages|].kind == Ai && r.vm.messages[|s.vm.messages|].content == e.chunk.value &&
            !r.vm.messages[|s.vm.messages|].hasToolCallAfter &&
            r.response == Some(|s.vm.messages|) && r.responseText == e.chunk.value && !r.lastChunkWasToolCall
  {
    var r := Step(s, e, env);
    assert r.vm.messages[..|s.vm.messages|] == s.vm.messages;
  }

  /** An accepted text event with a message open adds its text to that message. */
  lemma ExtendStep(s: Fold, e: StreamChunkData, env: Env)
    requires !IsToolEvent(e) && Accepts(e) && !s.lastChunkWasToolCall && s.response.Some?
    requires s.response.value < |s.vm.messages|
    ensures var r := Step(s, e, env);
            r.vm.messages == s.vm.messages[s.response.value :=
              s.vm.messages[s.response.value].(content := s.responseText + e.chunk.value)] &&
            r.response == s.response && r.responseText == s.responseText + e.chunk.value
  {
  }

  /** A tool event with exactly one of a call or a result marks the open message and appends one message. */
  lemma ToolEventStep(s: Fold, e: StreamChunkData, env: Env)
    requires IsToolEvent(e) && (HasToolCall(e) != HasToolResult(e))
    requires s.response.Some? && s.response.value < |s.vm.messages|
    ensures var r := Step(s, e, env);
            var i := s.response.value;
            |r.vm.messages| == |s.vm.messages| + 1 &&
            r.vm.messages[..|s.vm.messages|] == s.vm.messages[i := s.vm.messages[i].(hasToolCallAfter := true)] &&
            r.response == s.response && r.lastChunkWasToolCall
    ensures HasToolCall(e) ==>
            var m := Step(s, e, env).vm.messages[|s.vm.messages|];
            m.kind == ToolCall && m.id == e.toolCallId.value && m.toolCallId == e.toolCallId &&
            m.content == "Tool Call: " + e.toolName.value
    ensures HasToolResult(e) ==>
            var m := Step(s, e, env).vm.messages[|s.vm.messages|];
            m.kind == ToolResult && m.toolCallId == e.toolCallId && m.content == ResultSummary(e.toolResult.value)
  {
    var marked := MarkToolCallAfter(s.vm, s.response);
    var i := s.response.value;
    assert marked.messages == s.vm.messages[i := s.vm.messages[i].(hasToolCallAfter := true)];
  }

  /** The two texts of the second half joined: the answer follows the text it repeats. */
  lemma JoinRepeat(t: string, u: string)
    requires t == "Found it" && u == "Let me checkFound it"
    ensures t + u == "Found itLet me checkFound it"
  {
  }

  /** The opening text: nothing is open, so a new AI message starts. */
  lemma ToolStreamOpen(vm: ChatViewModel, threadId: Option<string>)
    ensures var n := |vm.messages|;
            var s1 := Step(StartFold(vm), CheckEvent(threadId), ScenarioEnv());
            |s1.vm.messages| == n + 1 && s1.vm.messages[..n] == vm.messages && s1.response == Some(n) &&
            s1.vm.messages[n].kind == Ai && s1.vm.messages[n].content == "Let me check"
  {
    AcceptsWord(CheckEvent(threadId));
    OpenStep(StartFold(vm), CheckEvent(threadId), ScenarioEnv());
  }

  /** The call event: the open message is marked and the tool-call message follows. */
  lemma ToolStreamCall(s1: Fold, threadId: Option<string>)
    requires s1.response.Some? && s1.response.value < |s1.vm.messages|
    ensures var n := |s1.vm.messages|;
            var i := s1.response.value;
            var s2 := Step(s1, CallEvent(threadId), ScenarioEnv());
            |s2.vm.messages| == n + 1 &&
            s2.vm.messages[..n] == s1.vm.messages[i := s1.vm.messages[i].(hasToolCallAfter := true)] &&
            s2.response == s1.response && s2.lastChunkWasToolCall && SearchCall(s2.vm.messages[n])
  {
    var e := CallEvent(threadId);
    ToolEventStep(s1, e, ScenarioEnv());
    CallTitle(e.toolName.value);
  }

  /** The result event: the tool-result message follows, summarised as carrying no sources. */
  lemma ToolStreamResult(s2: Fold, threadId: Option<string>)
    requires s2.response.Some? && s2.response.value < |s2.vm.messages|
    requires s2.vm.messages[s2.response.value].hasToolCallAfter
    ensures var n := |s2.vm.messages|;
            var s3 := Step(s2, ResultEvent(threadId), ScenarioEnv());
            |s3.vm.messages| == n + 1 && s3.vm.messages[..n] == s2.vm.messages &&
            s3.response == s2.response && s3.lastChunkWasToolCall && EmptyResult(s3.vm.messages[n])
  {
    var e := ResultEvent(threadId);
    assert ResultSummary(map[]) == "Tool result received" by { assert SourcesCount(map[]).None?; }
    ToolEventStep(s2, e, ScenarioEnv());
    var i := s2.response.value;
    assert s2.vm.messages[i := s2.vm.messages[i].(hasToolCallAfter := true)] == s2.vm.messages;
  }

  /** The first three events: the opening text, the call and the result. */
  lemma ToolStreamFirstHalf(vm: ChatViewModel, threadId: Option<string>)
    ensures var env := ScenarioEnv();
            var n := |vm.messages|;
            var s3 := Step(Step(Step(StartFold(vm), CheckEvent(threadId), env), CallEvent(threadId), env),
                           ResultEvent(threadId), env);
            |s3.vm.messages| == n + 3 && s3.vm.messages[..n] == vm.messages &&
            s3.response == Some(n) && s3.lastChunkWasToolCall &&
            FirstAnswer(s3.vm.messages[n]) && SearchCall(s3.vm.messages[n + 1]) && EmptyResult(s3.vm.messages[n + 2])
  {
    var env := ScenarioEnv();
    var n := |vm.messages|;
    var s1 := Step(StartFold(vm), CheckEvent(threadId), env);
    ToolStreamOpen(vm, threadId);
    var s2 := Step(s1, CallEvent(threadId), env);
    ToolStreamCall(s1, threadId);
    var marked := s1.vm.messages[n := s1.vm.messages[n].(hasToolCallAfter := true)];
    assert s2.vm.messages[..n + 1] == marked;
    assert s2.vm.messages[n] == marked[n];
    assert s2.vm.messages[..n] == vm.messages by { assert marked[..n] == s1.vm.messages[..n]; }
    ToolStreamResult(s2, threadId);
    var s3 := Step(s2, ResultEvent(threadId), env);
    assert s3.vm.messages[..n] == s3.vm.messages[..n + 2][..n];
    assert s3.vm.messages[n] == s2.vm.messages[n] && s3.vm.messages[n + 1] == s2.vm.messages[n + 1];
  }

  /** The last two events: the second text opens a new message and the final event repeats into it. */
  lemma ToolStreamSecondHalf(s3: Fold, threadId: Option<string>)
    requires s3.lastChunkWasToolCall
    ensures var env := ScenarioEnv();
            var n := |s3.vm.messages|;
            var s5 := Step(Step(s3, FoundEvent(threadId), env), AnswerEvent(threadId), env);
            |s5.vm.messages| == n + 1 && s5.vm.messages[..n] == s3.vm.messages && s5.response == Some(n) &&
            RepeatedAnswer(s5.vm.messages[n])
  {
    var env := ScenarioEnv();
    var n := |s3.vm.messages|;
    AcceptsWord(FoundEvent(threadId));
    AcceptsWord(AnswerEvent(threadId));
    var s4 := Step(s3, FoundEvent(threadId), env);
    OpenStep(s3, FoundEvent(threadId), env);
    var s5 := Step(s4, AnswerEvent(threadId), env);
    ExtendStep(s4, AnswerEvent(threadId), env);
    assert s5.vm.messages[..n] == s3.vm.messages by {
      assert s5.vm.messages[..n] == s4.vm.messages[..n];
    }
    JoinRepeat(s4.responseText, AnswerEvent(threadId).chunk.value);
  }

  /** The fold over the tool stream, one named event at a time. */
  lemma FoldToolEvents(s: Fold, threadId: Option<string>, env: Env)
    ensures FoldEvents(s, ToolEvents(threadId), env)
            == Step(Step(Step(Step(Step(s, CheckEvent(threadId), env), CallEvent(threadId), env),
                              ResultEvent(threadId), env), FoundEvent(threadId), env), AnswerEvent(threadId), env)
  {
    var ev := ToolEvents(threadId);
    FoldFive(s, ev, env);
    assert ev[0] == CheckEvent(threadId) && ev[1] == CallEvent(threadId) && ev[2] == ResultEvent(threadId);
    assert ev[3] == FoundEvent(threadId) && ev[4] == AnswerEvent(threadId);
  }

  /** Joining the two halves' message lists into the whole stream's shape. */
  lemma JoinHalves(prefix: seq<Message>, half: seq<Message>, whole: seq<Message>)
    requires |half| == |prefix| + 3 && half[..|prefix|] == prefix
    requires FirstAnswer(half[|prefix|]) && SearchCall(half[|prefix| + 1]) && EmptyResult(half[|prefix| + 2])
    requires |whole| == |half| + 1 && whole[..|half|] == half && RepeatedAnswer(whole[|half|])
    ensures ToolStreamShape(whole, |prefix|) && whole[..|prefix|] == prefix
  {
    var n := |prefix|;
    assert whole[n] == half[n] && whole[n + 1] == half[n + 1] && whole[n + 2] == half[n + 2];
    assert whole[..n] == half[..n];
  }

  lemma ToolStreamFold(vm: ChatViewModel, threadId: Option<string>)
    ensures var s := FoldEvents(StartFold(vm), ToolEvents(threadId), ScenarioEnv());
            ToolStreamShape(s.vm.messages, |vm.messages|) &&
            s.vm.messages[..|vm.messages|] == vm.messages && s.response == Some(|vm.messages| + 3)
  {
    var env := ScenarioEnv();
    FoldToolEvents(StartFold(vm), threadId, env);
    ToolStreamFirstHalf(vm, threadId);
    var s3 := Step(Step(Step(StartFold(vm), CheckEvent(threadId), env), CallEvent(threadId), env),
                   ResultEvent(threadId), env);
    ToolStreamSecondHalf(s3, threadId);
    var s5 := Step(Step(s3, FoundEvent(threadId), env), AnswerEvent(threadId), env);
    JoinHalves(vm.messages, s3.vm.messages, s5.vm.messages);
  }

  /**
    The tool stream through `streamResponse`: the first answer is marked as
    followed by a tool call, the call and result messages follow, and the
    final event, being short, repeats the whole text into the open second
    message after the text it already holds.
   */
  lemma ToolStreamRepeatsAnswer(vm: ChatViewModel)
    ensures var r := StreamResponse(vm, "q", OkResponse(ToolLines), ScenarioEnv());
            ToolStreamShape(r.messages, |vm.messages|) && r.messages[..|vm.messages|] == vm.messages &&
            r.errorMessage.None? && !r.isLoading
    ensures var r := StreamResponse(vm, "q", OkResponse(ToolLines), ScenarioEnv());
            !vm.isPrivateChat && vm.chatId.Some? ==>
            |r.outbox| >= 1 && r.outbox[|r.outbox| - 1] == Submission(r.messages[|vm.messages| + 3], vm.chatId.value)
  {
    var env := ScenarioEnv();
    var start := vm.(isLoading := true, errorMessage := None);
    ToolStreamOutcome(vm.chatId);
    ToolStreamFold(start, vm.chatId);
  }

  /** A `data: ` line whose payload carries only an `error` field. */
  const ErrorLines: seq<string> := ["data: " + ErrorPayload]

  /** The event such a line decodes to: the error and nothing else. */
  const ErrorEvent := StreamChunkData(None, None, Some("boom"), None, None, None, None, None, None, None, None, None, None, None)

  /** The error line on its own: a `data: ` line whose payload decodes to the error event. */
  lemma ErrorLineEvents(threadId: Option<string>)
    ensures LineEvents("data: " + ErrorPayload, threadId, None, ScenarioParse) == [ErrorEvent]
    ensures TextOf("data: " + ErrorPayload) == ""
  {
    var l := "data: " + ErrorPayload;
    assert HasPrefix(l, "data: ") by { assert l[..6] == "data: "; }
    ClassifyIff(l);
    DecodeLineKinds(l, threadId, None, ScenarioParse);
    assert l[6..] == ErrorPayload;
    assert !IsBlank(ErrorPayload) by { assert !IsWhitespace(ErrorPayload[0]); }
    assert ErrorPayload != CallPayload by { assert |ErrorPayload| != |CallPayload|; }
    assert ErrorPayload != ResultPayload by { assert |ErrorPayload| != |ResultPayload|; }
    var o := map["error" := JString("boom")];
    assert ScenarioParse(ErrorPayload) == Some(JObject(o));
    FromJsonErrorOnly("boom");
  }

  lemma ErrorLineDecoded(threadId: Option<string>)
    ensures DecodeLines(ErrorLines, threadId, None, ScenarioParse) == [ErrorEvent]
    ensures FullText(ErrorLines) == ""
  {
    var l := "data: " + ErrorPayload;
    assert ErrorLines == [l] + [];
    ErrorLineEvents(threadId);
    DecodeCons(l, [], threadId, None, ScenarioParse);
    DecodeLinesEmpty(threadId, None, ScenarioParse);
    FullTextCons(l, []);
  }

  lemma ErrorStreamOutcome(threadId: Option<string>)
    ensures StreamChatResponse("q", threadId, None, OkResponse(ErrorLines), ScenarioParse).failure.None?
    ensures StreamChatResponse("q", threadId, None, OkResponse(ErrorLines), ScenarioParse).events == [ErrorEvent]
  {
    ErrorLineDecoded(threadId);
  }

  /** `streamResponse` never reads the `error` field: the event changes nothing and no error is shown. */
  lemma StreamResponseIgnoresError(vm: ChatViewModel)
    ensures StreamResponse(vm, "q", OkResponse(ErrorLines), ScenarioEnv())
            == vm.(isLoading := false, errorMessage := None)
  {
    ErrorStreamOutcome(vm.chatId);
    var start := StartFold(vm.(isLoading := true, errorMessage := None));
    assert !Accepts(ErrorEvent) && !IsToolEvent(ErrorEvent);
    assert FoldEvents(start, [ErrorEvent], ScenarioEnv()) == start by {
      assert [ErrorEvent][1..] == [];
    }
  }

  /**
    The initial-message loop does read it: an error message is appended and
    (unless the chat is private) submitted, and the error is shown.
   */
  lemma InitialStreamReportsError(vm: ChatViewModel, id: string)
    ensures var r := InitialStream(vm, id, "q", OkResponse(ErrorLines), ScenarioEnv());
            r.errorMessage == Some("Failed to get response: boom") &&
            |r.messages| == |vm.messages| + 1 && r.messages[..|vm.messages|] == vm.messages &&
            r.messages[|vm.messages|].kind == Error && r.messages[|vm.messages|].content == "Error: boom"
    ensures var r := InitialStream(vm, id, "q", OkResponse(ErrorLines), ScenarioEnv());
            !vm.isPrivateChat ==> r.outbox == vm.outbox + [Submission(r.messages[|vm.messages|], id)]
  {
    ErrorStreamOutcome(Some(id));
    var start := StartFold(vm.(isLoading := true, errorMessage := None));
    assert InitialLoop(start, [ErrorEvent], ScenarioEnv()) == LoopResult(start, Failed("boom"));
    assert "Error: " + "boom" == "Error: boom";
    assert "Failed to get response: " + "boom" == "Failed to get response: boom";
  }
}
