/**
  The project record and its API codec.  The `description` key holds
  `projectDescription`; `imageData` is client-side only and never travels;
  `chats` is read when present but never written.  Dates are integers.
 */
module Projects {
  import opened Wrappers
  import opened JsonValues

  newtype byte = x: int | 0 <= x < 256

  /** A chat summary inside a project response. */
  datatype ChatPreview = ChatPreview(id: string, title: string, updatedAt: int)

  datatype Project = Project(
    id: string,
    name: string,
    projectDescription: Option<string>,
    userId: string,
    createdAt: int,
    updatedAt: int,
    imageData: Option<seq<byte>>,
    chats: Option<seq<ChatPreview>>)

  /** The memberwise `init`: `description` goes to `projectDescription`; no chats yet. */
  function NewProject(id: string, name: string, description: Option<string>, userId: string,
                      createdAt: int, updatedAt: int, imageData: Option<seq<byte>>): (p: Project)
    ensures p.id == id && p.name == name && p.projectDescription == description && p.userId == userId
    ensures p.createdAt == createdAt && p.updatedAt == updatedAt && p.imageData == imageData
    ensures p.chats.None?
  {
    Project(id, name, description, userId, createdAt, updatedAt, imageData, None)
  }

  /** `==`: two projects are equal when their ids are, whatever else differs. */
  predicate Same(a: Project, b: Project)
  {
    a.id == b.id
  }

  /** The equality is an equivalence, and a project equals any copy with the same id. */
  lemma SameIsEquivalence(a: Project, b: Project, c: Project, name: string, image: Option<seq<byte>>)
    ensures Same(a, a)
    ensures Same(a, b) ==> Same(b, a)
    ensures Same(a, b) && Same(b, c) ==> Same(a, c)
    ensures Same(a, a.(name := name, imageData := image, projectDescription := None, chats := None))
  {
  }

  // ---------------------------------------------------------------------------
  // Chat previews (synthesized `Codable`)
  // ---------------------------------------------------------------------------

  function EncodePreview(c: ChatPreview): Json
  {
    JObject(map["id" := JString(c.id), "title" := JString(c.title), "updatedAt" := JNumber(c.updatedAt)])
  }

  function DecodePreview(j: Json): (r: Decoded<ChatPreview>)
    ensures r.Ok? ==> j.JObject? && "id" in j.fields && j.fields["id"] == JString(r.value.id)
  {
    if !j.JObject? then Mismatch
    else
      var id :- RequiredString(j.fields, "id");
      var title :- RequiredString(j.fields, "title");
      var updatedAt :- RequiredNumber(j.fields, "updatedAt");
      Ok(ChatPreview(id, title, updatedAt))
  }

  /** An array of previews: every element must decode, and the order is kept. */
  function DecodePreviews(items: seq<Json>): (r: Decoded<seq<ChatPreview>>)
    ensures r.Ok? ==> |r.value| == |items|
    ensures r.Ok? ==> forall i :: 0 <= i < |items| ==> DecodePreview(items[i]) == Ok(r.value[i])
    ensures r.Mismatch? <==> exists i :: 0 <= i < |items| && DecodePreview(items[i]).Mismatch?
  {
    if items == [] then Ok([])
    else
      var first := DecodePreview(items[0]);
      var rest := DecodePreviews(items[1..]);
      assert forall i :: 1 <= i < |items| ==> items[i] == items[1..][i - 1];
      if first.Mismatch? then Mismatch
      else if rest.Mismatch? then Mismatch
      else Ok([first.value] + rest.value)
  }

  function EncodePreviews(chats: seq<ChatPreview>): (items: seq<Json>)
    ensures |items| == |chats|
  {
    seq(|chats|, i requires 0 <= i < |chats| => EncodePreview(chats[i]))
  }

  lemma {:induction false} DecodeEncodePreviews(chats: seq<ChatPreview>)
    ensures DecodePreviews(EncodePreviews(chats)) == Ok(chats)
  {
    if chats != [] {
      var items := EncodePreviews(chats);
      assert items[1..] == EncodePreviews(chats[1..]);
      DecodeEncodePreviews(chats[1..]);
      assert DecodePreview(items[0]) == Ok(chats[0]);
      assert chats == [chats[0]] + chats[1..];
    }
  }

  /** `decodeIfPresent([ChatPreview].self, forKey: .chats)`. */
  function ChatsIfPresent(o: map<string, Json>): (r: Decoded<Option<seq<ChatPreview>>>)
    ensures ("chats" !in o || o["chats"] == JNull) ==> r == Ok(None)
  {
    if "chats" !in o || o["chats"] == JNull then Ok(None)
    else if !o["chats"].JArray? then Mismatch
    else
      var chats :- DecodePreviews(o["chats"].items);
      Ok(Some(chats))
  }

  // ---------------------------------------------------------------------------
  // The project codec
  // ---------------------------------------------------------------------------

  /** `encode(to:)`: id, name, description when present, userId and the two dates. */
  function Encode(p: Project): (j: Json)
    ensures j.JObject?
    ensures j.fields.Keys == {"id", "name", "userId", "createdAt", "updatedAt"}
                             + (if p.projectDescription.Some? then {"description"} else {})
    ensures "imageData" !in j.fields && "chats" !in j.fields
  {
    JObject(map[
      "id" := JString(p.id),
      "name" := JString(p.name),
      "userId" := JString(p.userId),
      "createdAt" := JNumber(p.createdAt),
      "updatedAt" := JNumber(p.updatedAt)
    ] + StringEntryIfPresent("description", p.projectDescription))
  }

  /**
    `init(from:)`: five required keys, an optional description and optional
    chats; the image is always nil.
   */
  function Decode(j: Json): (r: Decoded<Project>)
    ensures r.Ok? ==> r.value.imageData.None?
    ensures r.Ok? ==> j.JObject? && "id" in j.fields && j.fields["id"] == JString(r.value.id)
    ensures r.Ok? && ("description" !in j.fields || j.fields["description"] == JNull) ==>
              r.value.projectDescription.None?
    ensures r.Ok? && ("chats" !in j.fields || j.fields["chats"] == JNull) ==> r.value.chats.None?
  {
    if !j.JObject? then Mismatch
    else
      var o := j.fields;
      var id :- RequiredString(o, "id");
      var name :- RequiredString(o, "name");
      var description :- StringIfPresent(o, "description");
      var userId :- RequiredString(o, "userId");
      var createdAt :- RequiredNumber(o, "createdAt");
      var updatedAt :- RequiredNumber(o, "updatedAt");
      var chats :- ChatsIfPresent(o);
      Ok(Project(id, name, description, userId, createdAt, updatedAt, None, chats))
  }

  /** Encoding then decoding keeps the API fields and loses the image and the chats. */
  lemma DecodeEncode(p: Project)
    ensures Decode(Encode(p)) == Ok(p.(imageData := None, chats := None))
  {
    var o := Encode(p).fields;
    assert o["id"] == JString(p.id) && o["name"] == JString(p.name) && o["userId"] == JString(p.userId);
    assert o["createdAt"] == JNumber(p.createdAt) && o["updatedAt"] == JNumber(p.updatedAt);
    assert StringIfPresent(o, "description") == Ok(p.projectDescription);
    assert ChatsIfPresent(o) == Ok(None);
  }

  /** Under the project's own `==`, which looks only at the id, the round trip gives back the same project. */
  lemma RoundTripSame(p: Project)
    ensures Decode(Encode(p)).Ok? && Same(Decode(Encode(p)).value, p)
  {
    DecodeEncode(p);
  }
}
