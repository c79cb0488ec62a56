/**
  Properties of the event fold of `ChatViewModel`: what the open response
  message holds, how text-only streams and tool events shape the message
  list, how the inline initial-message loop relates to `streamResponse`'s
  loop, and that a private chat submits nothing.
 */
module ChatStreamProperties {
  import opened Wrappers
  import opened Text
  import opened JsonValues
  import opened StreamChunks
  import opened ChatMessages
  import opened AgentsService
  import opened ChatViewModels

  // ---------------------------------------------------------------------------
  // The open response message
  // ---------------------------------------------------------------------------

  /**
    The fold's bookkeeping agrees with the screen: the open response message
    exists, is an AI message in the current mode, and shows exactly the text
    gathered for it.
   */
  predicate OpenMessageShowsText(s: Fold)
  {
    s.response.Some? ==>
      s.response.value < |s.vm.messages| &&
      s.vm.messages[s.response.value].kind == Ai &&
      s.vm.messages[s.response.value].mode == Some(s.vm.currentMode) &&
      s.vm.messages[s.response.value].content == s.responseText
  }

  lemma StepKeepsOpenMessage(s: Fold, e: StreamChunkData, env: Env)
    requires OpenMessageShowsText(s)
    ensures OpenMessageShowsText(Step(s, e, env))
  {
    if IsToolEvent(e) {
      var marked := MarkToolCallAfter(s.vm, s.response);
      var r := HandleToolCallChunk(marked, e, env);
      if s.response.Some? {
        var i := s.response.value;
        assert r.messages[..|marked.messages|] == marked.messages;
        assert r.messages[i] == marked.messages[i];
      }
    }
  }

  lemma {:induction false} FoldKeepsOpenMessage(s: Fold, events: seq<StreamChunkData>, env: Env)
    requires OpenMessageShowsText(s)
    ensures OpenMessageShowsText(FoldEvents(s, events, env))
    decreases |events|
  {
    if events != [] {
      StepKeepsOpenMessage(s, events[0], env);
      FoldKeepsOpenMessage(Step(s, events[0], env), events[1..], env);
    }
  }

  /**
    A tool event marks the open response message as followed by a tool call,
    changes nothing else about it, and makes the next accepted text open a
    new AI message at the end of the list.
   */
  lemma ToolEventSplitsResponse(s: Fold, tool: StreamChunkData, text: StreamChunkData, env: Env)
    requires IsToolEvent(tool) && !IsToolEvent(text) && Accepts(text)
    requires OpenMessageShowsText(s) && s.response.Some?
    ensures var i := s.response.value;
            var t := Step(s, tool, env);
            t.vm.messages[i] == s.vm.messages[i].(hasToolCallAfter := true)
    ensures var t := Step(Step(s, tool, env), text, env);
            t.response == Some(|Step(s, tool, env).vm.messages| ) &&
            t.vm.messages[|t.vm.messages| - 1].kind == Ai &&
            t.vm.messages[|t.vm.messages| - 1].content == text.chunk.value &&
            t.vm.messages[s.response.value].content == s.responseText
  {
    var i := s.response.value;
    var marked := MarkToolCallAfter(s.vm, s.response);
    var r := HandleToolCallChunk(marked, tool, env);
    assert r.messages[..|marked.messages|] == marked.messages;
    assert r.messages[i] == marked.messages[i];
  }

  // ---------------------------------------------------------------------------
  // Text-only streams
  // ---------------------------------------------------------------------------

  predicate NoToolEvents(events: seq<StreamChunkData>)
  {
    forall i :: 0 <= i < |events| ==> !IsToolEvent(events[i])
  }

  /** The accepted chunks, concatenated in order: the reference for what the response shows. */
  function AcceptedText(events: seq<StreamChunkData>): string
  {
    if events == [] then ""
    else (if Accepts(events[0]) then events[0].chunk.value else "") + AcceptedText(events[1..])
  }

  lemma AcceptedChunkNonEmpty(e: StreamChunkData)
    requires Accepts(e)
    ensures e.chunk.value != ""
  {
    assert TrimWhitespace([]) == [];
  }

  lemma {:induction false} AcceptedTextEmptyIff(events: seq<StreamChunkData>)
    ensures AcceptedText(events) == "" <==> forall i :: 0 <= i < |events| ==> !Accepts(events[i])
  {
    if events != [] {
      AcceptedTextEmptyIff(events[1..]);
      assert forall i :: 1 <= i < |events| ==> events[i] == events[1..][i - 1];
      if Accepts(events[0]) {
        AcceptedChunkNonEmpty(events[0]);
      }
    }
  }

  lemma NoToolEventsTail(events: seq<StreamChunkData>)
    requires events != [] && NoToolEvents(events)
    ensures NoToolEvents(events[1..]) && !IsToolEvent(events[0])
  {
    assert forall i :: 0 <= i < |events[1..]| ==> events[1..][i] == events[i + 1];
  }

  lemma AcceptedTextHead(events: seq<StreamChunkData>)
    requires events != []
    ensures AcceptedText(events) == (if Accepts(events[0]) then events[0].chunk.value else "") + AcceptedText(events[1..])
  {
  }

  lemma AppendAssoc(a: string, b: string, c: string)
    ensures a + b + c == a + (b + c)
  {
  }

  /** A text event with a message open adds its accepted chunk, if any, to that message. */
  lemma TextStepOnOpenMessage(s: Fold, e: StreamChunkData, env: Env)
    requires !IsToolEvent(e)
    requires OpenMessageShowsText(s) && s.response.Some? && !s.lastChunkWasToolCall
    ensures var r := Step(s, e, env);
            r.response == s.response && !r.lastChunkWasToolCall &&
            r.responseText == s.responseText + (if Accepts(e) then e.chunk.value else "") &&
            |r.vm.messages| == |s.vm.messages| && r.vm.outbox == s.vm.outbox && OpenMessageShowsText(r)
  {
    StepKeepsOpenMessage(s, e, env);
  }

  /** With a response message open and no tool events, the fold keeps that message open and adds none. */
  lemma {:induction false} TextOnlyKeepsOpenMessage(s: Fold, events: seq<StreamChunkData>, env: Env)
    requires NoToolEvents(events)
    requires OpenMessageShowsText(s) && s.response.Some? && !s.lastChunkWasToolCall
    ensures var r := FoldEvents(s, events, env);
            r.response == s.response && !r.lastChunkWasToolCall &&
            |r.vm.messages| == |s.vm.messages| && r.vm.outbox == s.vm.outbox
    decreases |events|
  {
    if events != [] {
      NoToolEventsTail(events);
      TextStepOnOpenMessage(s, events[0], env);
      TextOnlyKeepsOpenMessage(Step(s, events[0], env), events[1..], env);
    }
  }

  /** With a response message open and no tool events, every accepted chunk is added to it. */
  lemma {:induction false} TextOnlyExtendsOpenMessage(s: Fold, events: seq<StreamChunkData>, env: Env)
    requires NoToolEvents(events)
    requires OpenMessageShowsText(s) && s.response.Some? && !s.lastChunkWasToolCall
    ensures FoldEvents(s, events, env).responseText == s.responseText + AcceptedText(events)
    decreases |events|
  {
    if events != [] {
      NoToolEventsTail(events);
      var e := events[0];
      var s1 := Step(s, e, env);
      var x := if Accepts(e) then e.chunk.value else "";
      TextStepOnOpenMessage(s, e, env);
      TextOnlyExtendsOpenMessage(s1, events[1..], env);
      AcceptedTextHead(events);
      AppendAssoc(s.responseText, x, AcceptedText(events[1..]));
    }
  }

  /**
    A stream without tool events, folded from a state with no response
    message, adds nothing when no chunk is accepted and otherwise exactly one
    AI message (in the current mode) showing all accepted chunks in order.
   */
  lemma {:induction false} TextOnlyFold(s: Fold, events: seq<StreamChunkData>, env: Env)
    requires NoToolEvents(events)
    requires s.response.None? && !s.lastChunkWasToolCall
    ensures var r := FoldEvents(s, events, env);
            (AcceptedText(events) == "" ==> r == s) &&
            (AcceptedText(events) != "" ==>
               |r.vm.messages| == |s.vm.messages| + 1 &&
               r.vm.messages[..|s.vm.messages|] == s.vm.messages &&
               r.response == Some(|s.vm.messages|) &&
               r.vm.messages[|s.vm.messages|].kind == Ai &&
               r.vm.messages[|s.vm.messages|].mode == Some(s.vm.currentMode) &&
               r.vm.messages[|s.vm.messages|].content == AcceptedText(events) &&
               r.vm.outbox == s.vm.outbox)
    decreases |events|
  {
    if events != [] {
      NoToolEventsTail(events);
      var e := events[0];
      var s1 := Step(s, e, env);
      if Accepts(e) {
        assert OpenMessageShowsText(s1);
        TextOnlyExtendsOpenMessage(s1, events[1..], env);
        TextOnlyKeepsOpenMessage(s1, events[1..], env);
        FoldKeepsOpenMessage(s1, events[1..], env);
        FoldKeepsSettings(s1, events[1..], env);
        StepKeepsPrefix(s, e, env, |s.vm.messages|);
        FoldKeepsPrefix(s1, events[1..], env, |s.vm.messages|);
        var r := FoldEvents(s1, events[1..], env);
        assert r.vm.messages[..|s.vm.messages|] == s1.vm.messages[..|s.vm.messages|];
        AcceptedChunkNonEmpty(e);
      } else {
        assert s1 == s;
        TextOnlyFold(s, events[1..], env);
      }
    }
  }

  // ---------------------------------------------------------------------------
  // The synthetic final event reaches the screen
  // ---------------------------------------------------------------------------

  /** Every line is a `0:` line whose text is not blank. */
  predicate PlainTextLines(lines: seq<string>)
  {
    forall i :: 0 <= i < |lines| ==> Classify(lines[i]) == TextPart && !IsBlank(CleanContent(lines[i]))
  }

  lemma AcceptedTextCons(e: StreamChunkData, rest: seq<StreamChunkData>)
    ensures AcceptedText([e] + rest) == (if Accepts(e) then e.chunk.value else "") + AcceptedText(rest)
    ensures NoToolEvents([e] + rest) <==> !IsToolEvent(e) && NoToolEvents(rest)
  {
    assert ([e] + rest)[1..] == rest;
    assert forall i :: 0 <= i < |rest| ==> ([e] + rest)[i + 1] == rest[i];
    if !IsToolEvent(e) && NoToolEvents(rest) {
      forall i | 0 <= i < |[e] + rest| ensures !IsToolEvent(([e] + rest)[i]) {
        if i > 0 {
          assert ([e] + rest)[i] == rest[i - 1];
        }
      }
    }
  }

  lemma {:induction false} PlainTextAccepted(lines: seq<string>, threadId: Option<string>, resourceId: Option<string>,
                                             parse: string -> Option<Json>)
    requires PlainTextLines(lines)
    ensures NoToolEvents(DecodeLines(lines, threadId, resourceId, parse))
    ensures AcceptedText(DecodeLines(lines, threadId, resourceId, parse)) == FullText(lines)
    decreases |lines|
  {
    if lines != [] {
      var rest := lines[1..];
      assert PlainTextLines(rest) by {
        forall i | 0 <= i < |rest| ensures Classify(rest[i]) == TextPart && !IsBlank(CleanContent(rest[i])) {
          assert rest[i] == lines[i + 1];
        }
      }
      PlainTextAccepted(rest, threadId, resourceId, parse);
      var line := lines[0];
      assert Classify(line) == TextPart && !IsBlank(CleanContent(line));
      TextLineEvents(line, threadId, resourceId, parse);
      var e := TextEvent(line, threadId, resourceId);
      var tail := DecodeLines(rest, threadId, resourceId, parse);
      assert DecodeLines(lines, threadId, resourceId, parse) == [e] + tail;
      AcceptsIff(e);
      AcceptedTextCons(e, tail);
      assert FullText(lines) == CleanContent(line) + FullText(rest);
    }
  }

  lemma NotBlankAppend(a: string, b: string)
    requires !IsBlank(a)
    ensures !IsBlank(a + b) && !IsBlank(b + a)
  {
    var i :| 0 <= i < |a| && !IsWhitespace(a[i]);
    assert (a + b)[i] == a[i];
    assert (b + a)[|b| + i] == a[i];
  }

  lemma {:induction false} PlainTextFullTextNotBlank(lines: seq<string>)
    requires PlainTextLines(lines) && lines != []
    ensures !IsBlank(FullText(lines))
  {
    assert TextOf(lines[0]) == CleanContent(lines[0]);
    NotBlankAppend(CleanContent(lines[0]), FullText(lines[1..]));
  }

  lemma AcceptedTextAppend(a: seq<StreamChunkData>, b: seq<StreamChunkData>)
    ensures AcceptedText(a + b) == AcceptedText(a) + AcceptedText(b)
    decreases |a|
  {
    if a != [] {
      assert (a + b)[1..] == a[1..] + b;
      AcceptedTextAppend(a[1..], b);
    } else {
      assert a + b == b;
    }
  }

  /**
    The synthetic final event is shown too, unless the whole answer is longer
    than 100 characters: a short plain answer appears twice in its message.
   */
  lemma FinalEventAccepted(text: string, threadId: Option<string>)
    requires !IsBlank(text)
    ensures AcceptedText([Memberwise(Some(text), Some(true), None, threadId, None)])
            == (if |text| <= 100 then text else "")
  {
    var e := Memberwise(Some(text), Some(true), None, threadId, None);
    AcceptedTextCons(e, []);
    AcceptsIff(e);
    assert [e] + [] == [e];
  }

  /** The body of a plain-text stream: no tool events, and the text once or, when short, twice. */
  lemma PlainTextBody(chatId: Option<string>, lines: seq<string>, parse: string -> Option<Json>)
    requires PlainTextLines(lines) && lines != []
    ensures var events := DecodeBody(lines, chatId, None, parse);
            var text := FullText(lines);
            text != [] && NoToolEvents(events) &&
            AcceptedText(events) == (if |text| <= 100 then text + text else text)
  {
    var lineEvents := DecodeLines(lines, chatId, None, parse);
    var final := FinalEvent(lines, chatId, None);
    PlainTextAccepted(lines, chatId, None, parse);
    PlainTextFullTextNotBlank(lines);
    var text := FullText(lines);
    assert final == [Memberwise(Some(text), Some(true), None, chatId, None)];
    FinalEventAccepted(text, chatId);
    AcceptedTextAppend(lineEvents, final);
  }

  /** The same, seen through a successful response. */
  lemma PlainTextOutcome(chatId: Option<string>, prompt: string, lines: seq<string>, parse: string -> Option<Json>)
    requires PlainTextLines(lines) && lines != []
    ensures var events := StreamChatResponse(prompt, chatId, None, HttpResponse(Some(200), None, lines, None), parse).events;
            var text := FullText(lines);
            text != [] && NoToolEvents(events) &&
            AcceptedText(events) == (if |text| <= 100 then text + text else text)
  {
    PlainTextBody(chatId, lines, parse);
  }

  lemma ShortAnswerShownTwice(vm: ChatViewModel, prompt: string, lines: seq<string>, env: Env)
    requires PlainTextLines(lines) && lines != []
    ensures var response := HttpResponse(Some(200), None, lines, None);
            var r := StreamResponse(vm, prompt, response, env);
            var text := FullText(lines);
            |r.messages| == |vm.messages| + 1 &&
            r.messages[..|vm.messages|] == vm.messages &&
            r.messages[|vm.messages|].kind == Ai &&
            r.messages[|vm.messages|].content == (if |text| <= 100 then text + text else text)
  {
    var response := HttpResponse(Some(200), None, lines, None);
    var events := StreamChatResponse(prompt, vm.chatId, None, response, env.parse).events;
    PlainTextOutcome(vm.chatId, prompt, lines, env.parse);
    var start := StartFold(vm.(isLoading := true, errorMessage := None));
    TextOnlyFold(start, events, env);
    var s := FoldEvents(start, events, env);
    FoldKeepsOpenMessage(start, events, env);
    var r := StreamResponse(vm, prompt, response, env);
    assert r.messages == SaveResponse(s).messages;
  }

  // ---------------------------------------------------------------------------
  // Private chats and the outbox
  // ---------------------------------------------------------------------------

  lemma {:induction false} FoldKeepsOutboxWhenPrivate(s: Fold, events: seq<StreamChunkData>, env: Env)
    requires s.vm.isPrivateChat
    ensures FoldEvents(s, events, env).vm.outbox == s.vm.outbox
    decreases |events|
  {
    if events != [] {
      StepKeepsOutboxWhenPrivate(s, events[0], env);
      FoldKeepsOutboxWhenPrivate(Step(s, events[0], env), events[1..], env);
    }
  }

  /** A step only ever appends to the outbox. */
  lemma StepOutboxAppendOnly(s: Fold, e: StreamChunkData, env: Env)
    ensures var r := Step(s, e, env).vm.outbox;
            |r| >= |s.vm.outbox| && r[..|s.vm.outbox|] == s.vm.outbox
  {
    if IsToolEvent(e) {
      var marked := MarkToolCallAfter(s.vm, s.response);
      var r := HandleToolCallChunk(marked, e, env);
      assert r.outbox[..|s.vm.outbox|] == s.vm.outbox;
    }
  }

  lemma {:induction false} FoldOutboxAppendOnly(s: Fold, events: seq<StreamChunkData>, env: Env)
    ensures var r := FoldEvents(s, events, env).vm.outbox;
            |r| >= |s.vm.outbox| && r[..|s.vm.outbox|] == s.vm.outbox
    decreases |events|
  {
    if events != [] {
      StepOutboxAppendOnly(s, events[0], env);
      FoldOutboxAppendOnly(Step(s, events[0], env), events[1..], env);
      var mid := Step(s, events[0], env).vm.outbox;
      var r := FoldEvents(s, events, env).vm.outbox;
      assert r[..|s.vm.outbox|] == r[..|mid|][..|s.vm.outbox|];
    }
  }

  /** `saveResponse` submits at most the response message, after what was already submitted. */
  lemma SaveResponseOutbox(s: Fold)
    ensures var r := SaveResponse(s).outbox;
            |r| >= |s.vm.outbox| && r[..|s.vm.outbox|] == s.vm.outbox
  {
    var r := SaveResponse(s).outbox;
    if r != s.vm.outbox {
      assert r[..|s.vm.outbox|] == s.vm.outbox;
    }
  }

  /** Streaming a response submits nothing in a private chat and otherwise only appends. */
  lemma StreamResponseOutbox(vm: ChatViewModel, prompt: string, response: HttpResponse, env: Env)
    ensures vm.isPrivateChat ==> StreamResponse(vm, prompt, response, env).outbox == vm.outbox
    ensures var r := StreamResponse(vm, prompt, response, env).outbox;
            |r| >= |vm.outbox| && r[..|vm.outbox|] == vm.outbox
  {
    var outcome := StreamChatResponse(prompt, vm.chatId, None, response, env.parse);
    var start := StartFold(vm.(isLoading := true, errorMessage := None));
    FoldOutboxAppendOnly(start, outcome.events, env);
    FoldKeepsSettings(start, outcome.events, env);
    if vm.isPrivateChat {
      FoldKeepsOutboxWhenPrivate(start, outcome.events, env);
    }
    var s := FoldEvents(start, outcome.events, env);
    SaveResponseOutbox(s);
    var r := StreamResponse(vm, prompt, response, env).outbox;
    assert r == (if outcome.failure.None? then SaveResponse(s) else RewriteOnError(s, env)).outbox;
    assert r[..|vm.outbox|] == r[..|s.vm.outbox|][..|vm.outbox|];
  }

  /**
    Sending a message and streaming the answer submits nothing in a private
    chat, and otherwise only appends to what was submitted before.
   */
  lemma SendAndStreamOutbox(vm: ChatViewModel, response: HttpResponse, env: Env)
    ensures vm.isPrivateChat ==> SendAndStream(vm, response, env).outbox == vm.outbox
    ensures var r := SendAndStream(vm, response, env).outbox;
            |r| >= |vm.outbox| && r[..|vm.outbox|] == vm.outbox
  {
    var sent := SendMessage(vm, env.now);
    if sent.prompt.Some? {
      var v := sent.vm;
      StreamResponseOutbox(v, sent.prompt.value, response, env);
      var r := SendAndStream(vm, response, env).outbox;
      assert r == StreamResponse(v, sent.prompt.value, response, env).outbox;
      assert r[..|vm.outbox|] == r[..|v.outbox|][..|vm.outbox|];
    }
  }

  /** Loading a private chat and answering its first message submits nothing either. */
  lemma LoadAndSendInitialPrivate(vm: ChatViewModel, loaded: Loaded, response: HttpResponse, env: Env)
    requires vm.isPrivateChat
    ensures LoadAndSendInitial(vm, loaded, response, env).outbox == vm.outbox
  {
  }

  // ---------------------------------------------------------------------------
  // The inline initial-message loop is a truncated `streamResponse` loop
  // ---------------------------------------------------------------------------

  /** Where the inline loop leaves: at an event carrying an error, or after a text event marked done. */
  predicate StopsInitialLoop(e: StreamChunkData)
  {
    e.error.Some? || (!IsToolEvent(e) && e.done == Some(true))
  }

  /** Events that do not stop the inline loop are folded exactly as `streamResponse` folds them. */
  lemma {:induction false} InitialLoopSkip(s: Fold, a: seq<StreamChunkData>, b: seq<StreamChunkData>, env: Env)
    requires forall i :: 0 <= i < |a| ==> !StopsInitialLoop(a[i])
    ensures InitialLoop(s, a + b, env) == InitialLoop(FoldEvents(s, a, env), b, env)
    decreases |a|
  {
    if a != [] {
      var s1 := Step(s, a[0], env);
      assert (a + b)[0] == a[0] && (a + b)[1..] == a[1..] + b;
      assert !StopsInitialLoop(a[0]);
      assert InitialLoop(s, a + b, env) == InitialLoop(s1, a[1..] + b, env);
      assert forall i :: 0 <= i < |a[1..]| ==> a[1..][i] == a[i + 1];
      InitialLoopSkip(s1, a[1..], b, env);
    } else {
      assert a + b == b;
    }
  }

  /**
    The inline loop folds exactly like `streamResponse` up to its first
    stopping event: an error event is not folded, a done text event is, and
    without a stopping event every event is folded.
   */
  lemma InitialLoopIsTruncatedFold(s: Fold, events: seq<StreamChunkData>, env: Env, k: nat)
    requires k <= |events|
    requires forall i :: 0 <= i < k ==> !StopsInitialLoop(events[i])
    requires k < |events| ==> StopsInitialLoop(events[k])
    ensures var r := InitialLoop(s, events, env);
            (k == |events| ==> r == LoopResult(FoldEvents(s, events, env), Exhausted)) &&
            (k < |events| && events[k].error.Some? ==>
               r == LoopResult(FoldEvents(s, events[..k], env), Failed(events[k].error.value))) &&
            (k < |events| && events[k].error.None? ==>
               r == LoopResult(FoldEvents(s, events[..k + 1], env), StoppedAtDone))
  {
    var a, b := events[..k], events[k..];
    assert events == a + b;
    InitialLoopSkip(s, a, b, env);
    var t := FoldEvents(s, a, env);
    if k == |events| {
      assert b == [] && a == events;
    } else {
      var e := events[k];
      assert b[0] == e;
      if e.error.None? {
        assert InitialLoop(t, b, env) == LoopResult(Step(t, e, env), StoppedAtDone);
        assert events[..k + 1] == a + [e];
        FoldEventsAppend(s, a, [e], env);
        assert FoldEvents(t, [e], env) == FoldEvents(Step(t, e, env), [], env);
      }
    }
  }
}
