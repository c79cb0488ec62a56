/**
  The decoded stream event (`StreamChunkData`): its memberwise initializer, its
  JSON decoder, which reads only the twelve coding keys, and the encoder
  Swift synthesizes from those same keys.
 */
module StreamChunks {
  import opened Wrappers
  import opened JsonValues

  datatype StreamChunkData = StreamChunkData(
    chunk: Option<string>,
    done: Option<bool>,
    error: Option<string>,
    progress: Option<string>,
    step: Option<string>,
    timestamp: Option<int>,
    threadId: Option<string>,
    resourceId: Option<string>,
    requestId: Option<string>,
    toolCallId: Option<string>,
    toolName: Option<string>,
    toolArgs: Option<map<string, Json>>,
    toolResult: Option<map<string, Json>>,
    isToolCall: Option<bool>)

  /**
    The memberwise initializer: stores what it is given and leaves the four
    fields it has no parameter for nil.
   */
  function Memberwise(chunk: Option<string>, done: Option<bool>, error: Option<string>,
                      threadId: Option<string>, resourceId: Option<string>,
                      isToolCall: Option<bool> := Some(false), toolCallId: Option<string> := None,
                      toolName: Option<string> := None, toolArgs: Option<map<string, Json>> := None,
                      toolResult: Option<map<string, Json>> := None): (d: StreamChunkData)
    ensures d.chunk == chunk && d.done == done && d.error == error
    ensures d.threadId == threadId && d.resourceId == resourceId
    ensures d.isToolCall == isToolCall && d.toolCallId == toolCallId && d.toolName == toolName
    ensures d.toolArgs == toolArgs && d.toolResult == toolResult
    ensures d.progress.None? && d.step.None? && d.timestamp.None? && d.requestId.None?
  {
    StreamChunkData(chunk, done, error, None, None, None, threadId, resourceId, None,
                    toolCallId, toolName, toolArgs, toolResult, isToolCall)
  }

  /** The memberwise initializer called with only its five leading arguments. */
  lemma MemberwiseDefaults(chunk: Option<string>, done: Option<bool>, error: Option<string>,
                           threadId: Option<string>, resourceId: Option<string>)
    ensures Memberwise(chunk, done, error, threadId, resourceId).isToolCall == Some(false)
    ensures var d := Memberwise(chunk, done, error, threadId, resourceId);
            d.toolCallId.None? && d.toolName.None? && d.toolArgs.None? && d.toolResult.None?
  {
  }

  /** True when `key` is absent from the decoded object. */
  predicate Absent(j: Json, key: string)
  {
    j.JObject? && key !in j.fields
  }

  /**
    `init(from:)`: each of the twelve coding keys is optional; `toolArgs` and
    `toolResult` are not coding keys and always come out nil.
   */
  function FromJson(j: Json): (r: Decoded<StreamChunkData>)
    ensures r.Ok? ==> j.JObject?
    ensures r.Ok? ==> r.value.toolArgs.None? && r.value.toolResult.None?
    ensures r.Ok? && Absent(j, "chunk") ==> r.value.chunk.None?
    ensures r.Ok? && Absent(j, "done") ==> r.value.done.None?
    ensures r.Ok? && Absent(j, "error") ==> r.value.error.None?
    ensures r.Ok? && Absent(j, "progress") ==> r.value.progress.None?
    ensures r.Ok? && Absent(j, "step") ==> r.value.step.None?
    ensures r.Ok? && Absent(j, "timestamp") ==> r.value.timestamp.None?
    ensures r.Ok? && Absent(j, "threadId") ==> r.value.threadId.None?
    ensures r.Ok? && Absent(j, "resourceId") ==> r.value.resourceId.None?
    ensures r.Ok? && Absent(j, "requestId") ==> r.value.requestId.None?
    ensures r.Ok? && Absent(j, "toolCallId") ==> r.value.toolCallId.None?
    ensures r.Ok? && Absent(j, "toolName") ==> r.value.toolName.None?
    ensures r.Ok? && Absent(j, "isToolCall") ==> r.value.isToolCall.None?
    ensures j == JObject(map[]) ==> r.Ok?
  {
    if !j.JObject? then Mismatch
    else
      var o := j.fields;
      var chunk :- StringIfPresent(o, "chunk");
      var done :- BoolIfPresent(o, "done");
      var error :- StringIfPresent(o, "error");
      var progress :- StringIfPresent(o, "progress");
      var step :- StringIfPresent(o, "step");
      var timestamp :- NumberIfPresent(o, "timestamp");
      var threadId :- StringIfPresent(o, "threadId");
      var resourceId :- StringIfPresent(o, "resourceId");
      var requestId :- StringIfPresent(o, "requestId");
      var toolCallId :- StringIfPresent(o, "toolCallId");
      var toolName :- StringIfPresent(o, "toolName");
      var isToolCall :- BoolIfPresent(o, "isToolCall");
      Ok(StreamChunkData(chunk, done, error, progress, step, timestamp, threadId, resourceId,
                         requestId, toolCallId, toolName, None, None, isToolCall))
  }

  function StringValue(v: Option<string>): Option<Json>
  {
    if v.Some? then Some(JString(v.value)) else None
  }

  function BoolValue(v: Option<bool>): Option<Json>
  {
    if v.Some? then Some(JBool(v.value)) else None
  }

  /** The twelve coding keys. */
  const CodingKeys: set<string> :=
    {"chunk", "done", "error", "progress", "step", "timestamp", "threadId",
     "resourceId", "requestId", "toolCallId", "toolName", "isToolCall"}

  /** What the synthesized encoder writes under `key`, nil when it writes nothing. */
  function EncodedField(d: StreamChunkData, key: string): Option<Json>
  {
    if key == "chunk" then StringValue(d.chunk)
    else if key == "done" then BoolValue(d.done)
    else if key == "error" then StringValue(d.error)
    else if key == "progress" then StringValue(d.progress)
    else if key == "step" then StringValue(d.step)
    else if key == "timestamp" then (if d.timestamp.Some? then Some(JNumber(d.timestamp.value)) else None)
    else if key == "threadId" then StringValue(d.threadId)
    else if key == "resourceId" then StringValue(d.resourceId)
    else if key == "requestId" then StringValue(d.requestId)
    else if key == "toolCallId" then StringValue(d.toolCallId)
    else if key == "toolName" then StringValue(d.toolName)
    else if key == "isToolCall" then BoolValue(d.isToolCall)
    else None
  }

  /** The synthesized `encode(to:)`: `encodeIfPresent` of each coding key. */
  function ToJson(d: StreamChunkData): (j: Json)
    ensures j.JObject?
    ensures j.fields.Keys <= CodingKeys
    ensures "toolArgs" !in j.fields && "toolResult" !in j.fields
  {
    JObject(map k | k in CodingKeys && EncodedField(d, k).Some? :: EncodedField(d, k).value)
  }

  /** The encoded object holds exactly the present coding-key fields. */
  lemma ToJsonField(d: StreamChunkData, key: string)
    requires key in CodingKeys
    ensures key in ToJson(d).fields <==> EncodedField(d, key).Some?
    ensures key in ToJson(d).fields ==> ToJson(d).fields[key] == EncodedField(d, key).value
  {
  }

  /**
    Encoding then decoding an event gives it back, except that the tool
    arguments and result are lost: they never travel through the coding keys.
   */
  lemma FromJsonToJson(d: StreamChunkData)
    ensures FromJson(ToJson(d)) == Ok(d.(toolArgs := None, toolResult := None))
  {
    var o := ToJson(d).fields;
    forall k | k in CodingKeys
      ensures k in o <==> EncodedField(d, k).Some?
      ensures k in o ==> o[k] == EncodedField(d, k).value
    {
      ToJsonField(d, k);
    }
    assert StringIfPresent(o, "chunk") == Ok(d.chunk);
    assert BoolIfPresent(o, "done") == Ok(d.done);
    assert StringIfPresent(o, "error") == Ok(d.error);
    assert StringIfPresent(o, "progress") == Ok(d.progress);
    assert StringIfPresent(o, "step") == Ok(d.step);
    assert NumberIfPresent(o, "timestamp") == Ok(d.timestamp);
    assert StringIfPresent(o, "threadId") == Ok(d.threadId);
    assert StringIfPresent(o, "resourceId") == Ok(d.resourceId);
    assert StringIfPresent(o, "requestId") == Ok(d.requestId);
    assert StringIfPresent(o, "toolCallId") == Ok(d.toolCallId);
    assert StringIfPresent(o, "toolName") == Ok(d.toolName);
    assert BoolIfPresent(o, "isToolCall") == Ok(d.isToolCall);
  }

  /** An object holding only an error message decodes to an event that carries that error and nothing else. */
  lemma FromJsonErrorOnly(message: string)
    ensures FromJson(JObject(map["error" := JString(message)]))
            == Ok(StreamChunkData(None, None, Some(message), None, None, None, None, None, None, None, None, None, None, None))
  {
    var o := map["error" := JString(message)];
    assert o.Keys == {"error"};
    assert StringIfPresent(o, "error") == Ok(Some(message));
  }
}
