/**
  The agent streaming client (`AgentsService.streamChatResponse`): the
  request body, the HTTP status switch, the line decoder that turns the
  streamed text lines into `StreamChunkData` events, and the synthetic final
  event carrying the whole text.

  The byte stream is given as a finished `HttpResponse`: a status code (nil
  when the response is not HTTP), the UTF-8 body of a 400 reply, the text
  lines in arrival order and, when the transfer broke off after those lines,
  the transport error's description.  A cancelled stream is one whose line
  list stops early.  JSON text is turned into values by the `parse` parameter.
 */
module AgentsService {
  import opened Wrappers
  import opened Text
  import opened JsonValues
  import opened StreamChunks

  // ---------------------------------------------------------------------------
  // Request body
  // ---------------------------------------------------------------------------

  datatype AgentStreamRequest = AgentStreamRequest(
    messages: seq<map<string, string>>,
    threadId: Option<string>,
    resourceId: Option<string>)

  /** A thread id without a resource id stands in for the resource id. */
  function EffectiveResourceId(threadId: Option<string>, resourceId: Option<string>): Option<string>
  {
    if threadId.Some? && resourceId.None? then threadId else resourceId
  }

  /** `AgentStreamRequest.init(prompt:threadId:resourceId:)`. */
  function NewRequest(prompt: string, threadId: Option<string>, resourceId: Option<string>): (r: AgentStreamRequest)
    ensures r.messages == [map["role" := "user", "content" := prompt]]
    ensures r.threadId == threadId
    ensures threadId.Some? && resourceId.None? ==> r.resourceId == threadId
    ensures threadId.None? || resourceId.Some? ==> r.resourceId == resourceId
  {
    AgentStreamRequest([map["role" := "user", "content" := prompt]], threadId,
                       EffectiveResourceId(threadId, resourceId))
  }

  /**
    A request never names a thread without a resource, and defaulting twice
    (once in `streamChatResponse`, once in the initializer) is the same as
    defaulting once.
   */
  lemma NewRequestDefaulting(prompt: string, threadId: Option<string>, resourceId: Option<string>)
    ensures NewRequest(prompt, threadId, resourceId).threadId.Some? ==>
            NewRequest(prompt, threadId, resourceId).resourceId.Some?
    ensures NewRequest(prompt, threadId, EffectiveResourceId(threadId, resourceId))
            == NewRequest(prompt, threadId, resourceId)
    ensures resourceId.Some? ==> NewRequest(prompt, threadId, resourceId).resourceId == resourceId
  {
  }

  // ---------------------------------------------------------------------------
  // Errors and the status switch
  // ---------------------------------------------------------------------------

  /** `AgentApiError`; wrapped errors are represented by their description. */
  datatype ApiError =
    | NetworkError(description: string)
    | ServerError(message: string)
    | DecodingError(description: string)
    | InvalidResponse
    | Unauthorized
    | Unknown

  /**
    The status switch: 2xx proceeds (nil), 400 reports the body, 401 is
    `unauthorized`, and every other code is reported by number.  `body` is
    the reply decoded as UTF-8, nil when it is not valid UTF-8.
   */
  function CheckStatus(status: int, body: Option<string>): (r: Option<ApiError>)
    ensures r.None? <==> 200 <= status <= 299
    ensures status == 400 && body.Some? ==> r == Some(ServerError("Bad Request: " + body.value))
    ensures status == 400 && body.None? ==> r == Some(ServerError("Bad Request (400)"))
    ensures status == 401 ==> r == Some(Unauthorized)
    ensures !(200 <= status <= 299) && status != 400 && status != 401 ==>
            r == Some(ServerError("HTTP status code: " + IntToString(status)))
  {
    if 200 <= status <= 299 then None
    else if status == 400 then
      Some(ServerError(if body.Some? then "Bad Request: " + body.value else "Bad Request (400)"))
    else if status == 401 then Some(Unauthorized)
    else Some(ServerError("HTTP status code: " + IntToString(status)))
  }

  /** A status code reported by number can be read back from the message. */
  lemma {:induction false} StatusMessageInjective(s1: nat, s2: nat)
    requires !(200 <= s1 <= 299) && s1 != 400 && s1 != 401
    requires !(200 <= s2 <= 299) && s2 != 400 && s2 != 401
    requires CheckStatus(s1, None) == CheckStatus(s2, None)
    ensures s1 == s2
  {
    var prefix := "HTTP status code: ";
    assert prefix + NatToString(s1) == prefix + NatToString(s2);
    assert NatToString(s1) == (prefix + NatToString(s1))[|prefix|..];
    assert NatToString(s2) == (prefix + NatToString(s2))[|prefix|..];
    NatToStringRoundTrip(s1);
    NatToStringRoundTrip(s2);
  }

  // ---------------------------------------------------------------------------
  // Line classification
  // ---------------------------------------------------------------------------

  /** The branches of the line decoder, tried in this order. */
  datatype LineKind = MessageId | TextPart | ToolCallPart | ToolResultPart | EndMarker | DataLine | Unrecognized

  function Classify(line: string): LineKind
  {
    if HasPrefix(line, "f:") then MessageId
    else if HasPrefix(line, "0:") then TextPart
    else if HasPrefix(line, "9:") then ToolCallPart
    else if HasPrefix(line, "a:") then ToolResultPart
    else if HasPrefix(line, "e:") || HasPrefix(line, "d:") then EndMarker
    else if HasPrefix(line, "data: ") then DataLine
    else Unrecognized
  }

  /**
    Each kind is recognised by its own prefix alone: the prefixes are
    distinct in their first two characters, so the order of the tests
    never matters.
   */
  lemma ClassifyIff(line: string)
    ensures Classify(line) == TextPart <==> HasPrefix(line, "0:")
    ensures Classify(line) == ToolCallPart <==> HasPrefix(line, "9:")
    ensures Classify(line) == ToolResultPart <==> HasPrefix(line, "a:")
    ensures Classify(line) == EndMarker <==> HasPrefix(line, "e:") || HasPrefix(line, "d:")
    ensures Classify(line) == DataLine <==> HasPrefix(line, "data: ")
    ensures Classify(line) == MessageId <==> HasPrefix(line, "f:")
  {
    assert HasPrefix(line, "data: ") ==> line[0] == 'd' && line[1] == 'a';
  }

  /** A line whose second character is a colon is classified by its first character. */
  lemma ClassifyTag(line: string)
    requires |line| >= 2 && line[1] == ':'
    ensures line[0] == 'f' ==> Classify(line) == MessageId
    ensures line[0] == '0' ==> Classify(line) == TextPart
    ensures line[0] == '9' ==> Classify(line) == ToolCallPart
    ensures line[0] == 'a' ==> Classify(line) == ToolResultPart
    ensures line[0] == 'e' || line[0] == 'd' ==> Classify(line) == EndMarker
  {
    assert line[..2] == [line[0], ':'];
  }

  predicate IsQuote(c: char)
  {
    c == '"'
  }

  /**
    The text of a `0:` line: everything after the first colon with the
    leading and trailing double quotes removed.  Escapes are left as they are.
   */
  function CleanContent(line: string): (r: string)
    requires Classify(line) == TextPart
    ensures r != [] ==> !IsQuote(r[0]) && !IsQuote(r[|r| - 1])
  {
    Trim(line[2..], IsQuote)
  }

  /** The text the server meant is recovered when it neither starts nor ends with a quote. */
  lemma CleanContentQuoted(text: string)
    requires text != [] ==> !IsQuote(text[0]) && !IsQuote(text[|text| - 1])
    ensures Classify("0:\"" + text + "\"") == TextPart
    ensures CleanContent("0:\"" + text + "\"") == text
  {
    var line := "0:\"" + text + "\"";
    assert line[..2] == "0:";
    assert line[2..] == ['"'] + text + ['"'];
    TrimWrapped(text, '"', IsQuote);
  }

  // ---------------------------------------------------------------------------
  // Decoding one line
  // ---------------------------------------------------------------------------

  /** `dict[key] as? String ?? ""`. */
  function StringOrEmpty(o: map<string, Json>, key: string): string
  {
    if key in o && o[key].JString? then o[key].s else ""
  }

  /** `dict[key] as? [String: Any] ?? [:]`. */
  function ObjectOrEmpty(o: map<string, Json>, key: string): map<string, Json>
  {
    if key in o && o[key].JObject? then o[key].fields else map[]
  }

  /** The event of a `0:` line. */
  function TextEvent(line: string, threadId: Option<string>, resourceId: Option<string>): (e: StreamChunkData)
    requires Classify(line) == TextPart
  {
    Memberwise(Some(CleanContent(line)), Some(false), None, threadId, resourceId)
  }

  /** The event of a `9:` line whose payload is the object `o`. */
  function ToolCallEvent(o: map<string, Json>, threadId: Option<string>, resourceId: Option<string>): (e: StreamChunkData)
  {
    var name := StringOrEmpty(o, "toolName");
    Memberwise(Some("Tool Call: " + name), Some(false), None, threadId, resourceId,
               Some(true), Some(StringOrEmpty(o, "toolCallId")), Some(name), Some(ObjectOrEmpty(o, "args")))
  }

  /** The event of an `a:` line whose payload is the object `o`. */
  function ToolResultEvent(o: map<string, Json>, threadId: Option<string>, resourceId: Option<string>): (e: StreamChunkData)
  {
    Memberwise(Some("Tool Result"), Some(false), None, threadId, resourceId,
               Some(true), Some(StringOrEmpty(o, "toolCallId")), None, None, Some(ObjectOrEmpty(o, "result")))
  }

  /** The payload of a `data: ` line decoded as a `StreamChunkData`, nil when blank or undecodable. */
  function DataEvent(line: string, parse: string -> Option<Json>): (e: Option<StreamChunkData>)
    requires Classify(line) == DataLine
    ensures IsBlank(line[6..]) ==> e.None?
    ensures e.Some? <==> !IsBlank(line[6..]) && parse(line[6..]).Some? && FromJson(parse(line[6..]).value).Ok?
    ensures e.Some? ==> e == Some(FromJson(parse(line[6..]).value).value)
  {
    var payload := line[6..];
    TrimWhitespaceEmptyIffBlank(payload);
    if TrimWhitespace(payload) == "" then None
    else
      match parse(payload)
      case None => None
      case Some(j) =>
        match FromJson(j)
        case Ok(d) => Some(d)
        case Mismatch => None
  }

  /**
    One step of the decoder loop: the event a line yields, if any.  `threadId`
    and `resourceId` are the caller's arguments, echoed as given.
   */
  function DecodeLine(line: string, threadId: Option<string>, resourceId: Option<string>,
                      parse: string -> Option<Json>): Option<StreamChunkData>
  {
    match Classify(line)
    case MessageId => None
    case TextPart => Some(TextEvent(line, threadId, resourceId))
    case ToolCallPart =>
      (match parse(line[2..])
       case Some(JObject(o)) => Some(ToolCallEvent(o, threadId, resourceId))
       case _ => None)
    case ToolResultPart =>
      (match parse(line[2..])
       case Some(JObject(o)) => Some(ToolResultEvent(o, threadId, resourceId))
       case _ => None)
    case EndMarker => None
    case DataLine => DataEvent(line, parse)
    case Unrecognized => None
  }

  /**
    What each kind of line yields: nothing for message ids, end markers and
    unrecognised lines; always an event for text; an event for a tool line
    exactly when its payload parses to an object; and the decoded payload
    for a `data: ` line.  Every event the decoder builds itself echoes the
    caller's ids, is not done and carries no error.
   */
  lemma DecodeLineKinds(line: string, threadId: Option<string>, resourceId: Option<string>,
                        parse: string -> Option<Json>)
    ensures var r := DecodeLine(line, threadId, resourceId, parse);
            Classify(line) in {MessageId, EndMarker, Unrecognized} ==> r.None?
    ensures Classify(line) == TextPart ==> DecodeLine(line, threadId, resourceId, parse).Some?
    ensures var r := DecodeLine(line, threadId, resourceId, parse);
            Classify(line) in {ToolCallPart, ToolResultPart} ==>
            (r.Some? <==> parse(line[2..]).Some? && parse(line[2..]).value.JObject?)
    ensures var r := DecodeLine(line, threadId, resourceId, parse);
            Classify(line) != DataLine && r.Some? ==>
            r.value.threadId == threadId && r.value.resourceId == resourceId &&
            r.value.done == Some(false) && r.value.error.None?
    ensures var r := DecodeLine(line, threadId, resourceId, parse);
            r.Some? && Classify(line) == TextPart ==>
            r.value.chunk == Some(CleanContent(line)) && r.value.isToolCall == Some(false)
    ensures var r := DecodeLine(line, threadId, resourceId, parse);
            r.Some? && Classify(line) in {ToolCallPart, ToolResultPart} ==> r.value.isToolCall == Some(true)
    ensures var r := DecodeLine(line, threadId, resourceId, parse);
            r.Some? && Classify(line) == ToolCallPart ==>
            r.value.toolName.Some? && r.value.chunk == Some("Tool Call: " + r.value.toolName.value) &&
            r.value.toolCallId.Some? && r.value.toolArgs.Some? && r.value.toolResult.None?
    ensures var r := DecodeLine(line, threadId, resourceId, parse);
            r.Some? && Classify(line) == ToolResultPart ==>
            r.value.chunk == Some("Tool Result") && r.value.toolCallId.Some? &&
            r.value.toolResult.Some? && r.value.toolName.None? && r.value.toolArgs.None?
    ensures Classify(line) == DataLine ==> DecodeLine(line, threadId, resourceId, parse) == DataEvent(line, parse)
  {
  }

  /** A tool-call payload with every field present is carried over intact. */
  lemma ToolCallFields(line: string, threadId: Option<string>, resourceId: Option<string>,
                       parse: string -> Option<Json>, id: string, name: string, args: map<string, Json>)
    requires Classify(line) == ToolCallPart
    requires parse(line[2..]).Some? && parse(line[2..]).value.JObject?
    requires var o := parse(line[2..]).value.fields;
             "toolCallId" in o && o["toolCallId"] == JString(id) &&
             "toolName" in o && o["toolName"] == JString(name) &&
             "args" in o && o["args"] == JObject(args)
    ensures var r := DecodeLine(line, threadId, resourceId, parse);
            r.Some? && r.value.toolCallId == Some(id) && r.value.toolName == Some(name) &&
            r.value.toolArgs == Some(args) && r.value.chunk == Some("Tool Call: " + name)
  {
  }

  /** A tool-call payload missing its fields still yields an event, with empty defaults. */
  lemma ToolCallDefaults(line: string, threadId: Option<string>, resourceId: Option<string>,
                         parse: string -> Option<Json>)
    requires Classify(line) == ToolCallPart
    requires parse(line[2..]) == Some(JObject(map[]))
    ensures DecodeLine(line, threadId, resourceId, parse) ==
            Some(Memberwise(Some("Tool Call: "), Some(false), None, threadId, resourceId,
                            Some(true), Some(""), Some(""), Some(map[])))
  {
    assert "Tool Call: " + "" == "Tool Call: ";
  }

  // ---------------------------------------------------------------------------
  // Decoding the line list
  // ---------------------------------------------------------------------------

  /** The event of one line as a list of zero or one elements. */
  function LineEvents(line: string, threadId: Option<string>, resourceId: Option<string>,
                      parse: string -> Option<Json>): seq<StreamChunkData>
  {
    var e := DecodeLine(line, threadId, resourceId, parse);
    if e.Some? then [e.value] else []
  }

  /** `f` applied to every element, the results concatenated in order. */
  function FlatMap<A, B>(xs: seq<A>, f: A -> seq<B>): seq<B>
  {
    if xs == [] then [] else f(xs[0]) + FlatMap(xs[1..], f)
  }

  lemma {:induction false} FlatMapAppend<A, B>(xs: seq<A>, ys: seq<A>, f: A -> seq<B>)
    ensures FlatMap(xs + ys, f) == FlatMap(xs, f) + FlatMap(ys, f)
  {
    if xs != [] {
      assert (xs + ys)[0] == xs[0] && (xs + ys)[1..] == xs[1..] + ys;
      FlatMapAppend(xs[1..], ys, f);
    } else {
      assert xs + ys == ys;
    }
  }

  lemma {:induction false} FlatMapLength<A, B>(xs: seq<A>, f: A -> seq<B>)
    requires forall x | x in xs :: |f(x)| <= 1
    ensures |FlatMap(xs, f)| <= |xs|
  {
    if xs != [] {
      assert xs[0] in xs;
      assert forall x | x in xs[1..] :: x in xs;
      FlatMapLength(xs[1..], f);
    }
  }

  /** The per-line decoder with the request's thread and resource ids fixed. */
  function LineDecoder(threadId: Option<string>, resourceId: Option<string>,
                       parse: string -> Option<Json>): string -> seq<StreamChunkData>
  {
    line => LineEvents(line, threadId, resourceId, parse)
  }

  /** The events of the lines, in line order (a filter-map over the lines). */
  function DecodeLines(lines: seq<string>, threadId: Option<string>, resourceId: Option<string>,
                       parse: string -> Option<Json>): (events: seq<StreamChunkData>)
    ensures |events| <= |lines|
  {
    var f := LineDecoder(threadId, resourceId, parse);
    assert forall line | line in lines :: |f(line)| <= 1;
    FlatMapLength(lines, f);
    FlatMap(lines, f)
  }

  /** A line list decodes to its first line's events followed by the rest's. */
  lemma DecodeLinesCons(lines: seq<string>, threadId: Option<string>, resourceId: Option<string>,
                        parse: string -> Option<Json>)
    requires lines != []
    ensures DecodeLines(lines, threadId, resourceId, parse)
            == LineEvents(lines[0], threadId, resourceId, parse) + DecodeLines(lines[1..], threadId, resourceId, parse)
  {
  }

  lemma DecodeLinesEmpty(threadId: Option<string>, resourceId: Option<string>, parse: string -> Option<Json>)
    ensures DecodeLines([], threadId, resourceId, parse) == []
  {
  }

  /** A `0:` line yields exactly its text event. */
  lemma TextLineEvents(line: string, threadId: Option<string>, resourceId: Option<string>,
                       parse: string -> Option<Json>)
    requires Classify(line) == TextPart
    ensures LineEvents(line, threadId, resourceId, parse) == [TextEvent(line, threadId, resourceId)]
  {
  }

  /** Decoding distributes over concatenation of line lists. */
  lemma DecodeLinesAppend(a: seq<string>, b: seq<string>, threadId: Option<string>,
                          resourceId: Option<string>, parse: string -> Option<Json>)
    ensures DecodeLines(a + b, threadId, resourceId, parse)
            == DecodeLines(a, threadId, resourceId, parse) + DecodeLines(b, threadId, resourceId, parse)
  {
    FlatMapAppend(a, b, LineDecoder(threadId, resourceId, parse));
  }

  /**
    A stream cut short (cancelled) yields a prefix of the events of the
    whole stream.
   */
  lemma DecodeLinesPrefix(lines: seq<string>, k: nat, threadId: Option<string>, resourceId: Option<string>,
                          parse: string -> Option<Json>)
    requires k <= |lines|
    ensures var whole := DecodeLines(lines, threadId, resourceId, parse);
            var cut := DecodeLines(lines[..k], threadId, resourceId, parse);
            |cut| <= |whole| && whole[..|cut|] == cut
  {
    assert lines == lines[..k] + lines[k..];
    DecodeLinesAppend(lines[..k], lines[k..], threadId, resourceId, parse);
  }

  /** An end marker yields nothing and does not stop decoding: later lines still count. */
  lemma EndMarkerDoesNotStop(a: seq<string>, marker: string, b: seq<string>, threadId: Option<string>,
                             resourceId: Option<string>, parse: string -> Option<Json>)
    requires Classify(marker) == EndMarker
    ensures DecodeLines(a + [marker] + b, threadId, resourceId, parse)
            == DecodeLines(a, threadId, resourceId, parse) + DecodeLines(b, threadId, resourceId, parse)
  {
    var one := [marker];
    assert LineEvents(marker, threadId, resourceId, parse) == [];
    assert one[0] == marker && one[1..] == [];
    DecodeLinesCons(one, threadId, resourceId, parse);
    DecodeLinesEmpty(threadId, resourceId, parse);
    DecodeLinesAppend(a + one, b, threadId, resourceId, parse);
    DecodeLinesAppend(a, one, threadId, resourceId, parse);
    assert DecodeLines(a + one, threadId, resourceId, parse) == DecodeLines(a, threadId, resourceId, parse);
  }

  /** A line's contribution to the accumulated response text. */
  function TextOf(line: string): string
  {
    if Classify(line) == TextPart then CleanContent(line) else ""
  }

  /** `fullResponseContent`: the cleaned `0:` payloads, concatenated in order. */
  function FullText(lines: seq<string>): string
  {
    if lines == [] then "" else TextOf(lines[0]) + FullText(lines[1..])
  }

  lemma {:induction false} FullTextAppend(a: seq<string>, b: seq<string>)
    ensures FullText(a + b) == FullText(a) + FullText(b)
  {
    if a != [] {
      assert (a + b)[1..] == a[1..] + b;
      FullTextAppend(a[1..], b);
    } else {
      assert a + b == b;
    }
  }

  /** The accumulated text is non-empty exactly when some `0:` line has non-empty cleaned text. */
  lemma {:induction false} FullTextEmptyIff(lines: seq<string>)
    ensures FullText(lines) == "" <==> forall i :: 0 <= i < |lines| ==> TextOf(lines[i]) == ""
  {
    if lines != [] {
      FullTextEmptyIff(lines[1..]);
      assert FullText(lines) == TextOf(lines[0]) + FullText(lines[1..]);
      forall i | 1 <= i < |lines| ensures lines[i] == lines[1..][i - 1] {
      }
    }
  }

  /** The synthetic last event: the whole text with `done` set, when there was any text. */
  function FinalEvent(lines: seq<string>, threadId: Option<string>, resourceId: Option<string>): (r: seq<StreamChunkData>)
    ensures |r| <= 1
    ensures r != [] <==> FullText(lines) != ""
    ensures r != [] ==> r[0].chunk == Some(FullText(lines)) && r[0].done == Some(true) &&
                        r[0].isToolCall == Some(false) && r[0].error.None?
  {
    var text := FullText(lines);
    if text != "" then [Memberwise(Some(text), Some(true), None, threadId, resourceId)] else []
  }

  /** Everything a fully read line list yields: the line events, then the synthetic final event. */
  function DecodeBody(lines: seq<string>, threadId: Option<string>, resourceId: Option<string>,
                      parse: string -> Option<Json>): (events: seq<StreamChunkData>)
    ensures var body := DecodeLines(lines, threadId, resourceId, parse);
            |body| <= |events| && events[..|body|] == body
    ensures var body := DecodeLines(lines, threadId, resourceId, parse);
            |events| == |body| + 1 <==> FullText(lines) != ""
    ensures var body := DecodeLines(lines, threadId, resourceId, parse);
            |events| <= |body| + 1
    ensures var body := DecodeLines(lines, threadId, resourceId, parse);
            |events| > |body| ==> events[|events| - 1].chunk == Some(FullText(lines)) &&
                                  events[|events| - 1].done == Some(true) &&
                                  events[|events| - 1].isToolCall == Some(false) &&
                                  events[|events| - 1].error.None?
  {
    DecodeLines(lines, threadId, resourceId, parse) + FinalEvent(lines, threadId, resourceId)
  }

  // ---------------------------------------------------------------------------
  // Relating the events to the text
  // ---------------------------------------------------------------------------

  /** No line is a `data: ` line, so every event is one the decoder built itself. */
  predicate NoDataLines(lines: seq<string>)
  {
    forall i :: 0 <= i < |lines| ==> Classify(lines[i]) != DataLine
  }

  /** The chunks of the plain-text events, concatenated: what a reader of the events sees as text. */
  function EventText(events: seq<StreamChunkData>): string
  {
    if events == [] then ""
    else
      (if events[0].isToolCall == Some(false) && events[0].chunk.Some? then events[0].chunk.value else "")
      + EventText(events[1..])
  }

  /**
    Without `data: ` lines, the text the decoder accumulates is exactly the
    text of the events it yields, and every event echoes the caller's ids.
   */
  lemma {:induction false} FullTextIsEventText(lines: seq<string>, threadId: Option<string>,
                                               resourceId: Option<string>, parse: string -> Option<Json>)
    requires NoDataLines(lines)
    ensures FullText(lines) == EventText(DecodeLines(lines, threadId, resourceId, parse))
    ensures forall e | e in DecodeLines(lines, threadId, resourceId, parse) ::
              e.threadId == threadId && e.resourceId == resourceId && e.done == Some(false)
  {
    if lines != [] {
      var rest := lines[1..];
      assert NoDataLines(rest) by {
        forall i | 0 <= i < |rest| ensures Classify(rest[i]) != DataLine {
          assert rest[i] == lines[i + 1];
        }
      }
      FullTextIsEventText(rest, threadId, resourceId, parse);
      var head := LineEvents(lines[0], threadId, resourceId, parse);
      var tail := DecodeLines(rest, threadId, resourceId, parse);
      LineText(lines[0], threadId, resourceId, parse);
      EventTextAppend(head, tail);
      DecodeLinesCons(lines, threadId, resourceId, parse);
      assert FullText(lines) == TextOf(lines[0]) + FullText(rest);
    }
  }

  /** A line that is not a `data: ` line adds to the text exactly what its event shows as text. */
  lemma LineText(line: string, threadId: Option<string>, resourceId: Option<string>, parse: string -> Option<Json>)
    requires Classify(line) != DataLine
    ensures TextOf(line) == EventText(LineEvents(line, threadId, resourceId, parse))
    ensures forall e | e in LineEvents(line, threadId, resourceId, parse) ::
              e.threadId == threadId && e.resourceId == resourceId && e.done == Some(false)
  {
    DecodeLineKinds(line, threadId, resourceId, parse);
    var events := LineEvents(line, threadId, resourceId, parse);
    if events != [] {
      assert events[1..] == [];
    }
  }

  lemma {:induction false} EventTextAppend(a: seq<StreamChunkData>, b: seq<StreamChunkData>)
    ensures EventText(a + b) == EventText(a) + EventText(b)
  {
    if a != [] {
      assert (a + b)[1..] == a[1..] + b;
      EventTextAppend(a[1..], b);
    } else {
      assert a + b == b;
    }
  }

  // ---------------------------------------------------------------------------
  // The whole call
  // ---------------------------------------------------------------------------

  /**
    What the server sends.  `status` is nil when the reply is not an HTTP
    response; `body` is the UTF-8 text of a 400 reply; `lines` are the lines
    received; `failure` describes the transport error that ended the
    transfer after them, if any.
   */
  datatype HttpResponse = HttpResponse(
    status: Option<int>,
    body: Option<string>,
    lines: seq<string>,
    failure: Option<string>)

  /** The request sent, the events yielded in order, and the error the stream finished with. */
  datatype StreamOutcome = StreamOutcome(
    request: AgentStreamRequest,
    events: seq<StreamChunkData>,
    failure: Option<ApiError>)

  /**
    `streamChatResponse(prompt:mode:threadId:resourceId:)`.  The `mode`
    argument is never sent, so it is not a parameter here.
   */
  function StreamChatResponse(prompt: string, threadId: Option<string>, resourceId: Option<string>,
                              response: HttpResponse, parse: string -> Option<Json>): (r: StreamOutcome)
    ensures r.request == NewRequest(prompt, threadId, EffectiveResourceId(threadId, resourceId))
    ensures response.status.None? ==> r.events == [] && r.failure == Some(InvalidResponse)
    ensures response.status.Some? && !(200 <= response.status.value <= 299) ==>
            r.events == [] &&
            r.failure == (if response.status.value == 400 && response.failure.Some?
                          then Some(NetworkError(response.failure.value))
                          else CheckStatus(response.status.value, response.body))
    ensures response.status.Some? && 200 <= response.status.value <= 299 && response.failure.None? ==>
            r.failure.None? && r.events == DecodeBody(response.lines, threadId, resourceId, parse)
    ensures response.status.Some? && 200 <= response.status.value <= 299 && response.failure.Some? ==>
            r.failure == Some(NetworkError(response.failure.value)) &&
            r.events == DecodeLines(response.lines, threadId, resourceId, parse)
  {
    var request := NewRequest(prompt, threadId, EffectiveResourceId(threadId, resourceId));
    match response.status
    case None => StreamOutcome(request, [], Some(InvalidResponse))
    case Some(status) =>
      if status == 400 && response.failure.Some? then
        // the transfer broke off while the error body was being read
        StreamOutcome(request, [], Some(NetworkError(response.failure.value)))
      else
        match CheckStatus(status, response.body)
        case Some(err) => StreamOutcome(request, [], Some(err))
        case None =>
          if response.failure.Some? then
            StreamOutcome(request, DecodeLines(response.lines, threadId, resourceId, parse),
                          Some(NetworkError(response.failure.value)))
          else
            StreamOutcome(request, DecodeBody(response.lines, threadId, resourceId, parse), None)
  }

  /**
    A successful stream yields the events of its lines followed by at most
    one extra event, which is there exactly when some `0:` line had text.
   */
  lemma StreamFinalEvent(prompt: string, threadId: Option<string>, resourceId: Option<string>,
                         response: HttpResponse, parse: string -> Option<Json>)
    requires response.status.Some? && 200 <= response.status.value <= 299 && response.failure.None?
    ensures var r := StreamChatResponse(prompt, threadId, resourceId, response, parse);
            var lineEvents := DecodeLines(response.lines, threadId, resourceId, parse);
            r.events[..|lineEvents|] == lineEvents &&
            (|r.events| == |lineEvents| + 1 <==> exists i :: 0 <= i < |response.lines| && TextOf(response.lines[i]) != "") &&
            (|r.events| == |lineEvents| || |r.events| == |lineEvents| + 1)
  {
    FullTextEmptyIff(response.lines);
  }
}
