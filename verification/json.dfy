/**
  Pre-parsed JSON values and the per-key decoding rules of Swift's `Codable`
  containers.  Turning JSON text into a value (`JSONSerialization`,
  `JSONDecoder`) is not modelled: callers receive a `parse` function.
  Numbers are integers (floating point is left out).
 */
module JsonValues {
  import opened Wrappers

  datatype Json =
    | JNull
    | JBool(b: bool)
    | JNumber(n: int)
    | JString(s: string)
    | JArray(items: seq<Json>)
    | JObject(fields: map<string, Json>)

  /** Outcome of decoding one value; `Mismatch` is a thrown `DecodingError`. */
  datatype Decoded<+T> = Ok(value: T) | Mismatch {

    predicate IsFailure() {
      Mismatch?
    }

    function PropagateFailure<U>(): Decoded<U>
      requires Mismatch?
    {
      Mismatch
    }

    function Extract(): T
      requires Ok?
    {
      value
    }
  }

  /** `decodeIfPresent(String.self, forKey:)`: absent or null gives nil, a non-string throws. */
  function StringIfPresent(o: map<string, Json>, key: string): (r: Decoded<Option<string>>)
    ensures (key !in o || o[key] == JNull) ==> r == Ok(None)
    ensures key in o && o[key].JString? ==> r == Ok(Some(o[key].s))
    ensures r.Mismatch? <==> key in o && o[key] != JNull && !o[key].JString?
  {
    if key !in o || o[key] == JNull then Ok(None)
    else if o[key].JString? then Ok(Some(o[key].s))
    else Mismatch
  }

  /** `decodeIfPresent(Bool.self, forKey:)`. */
  function BoolIfPresent(o: map<string, Json>, key: string): (r: Decoded<Option<bool>>)
    ensures (key !in o || o[key] == JNull) ==> r == Ok(None)
    ensures key in o && o[key].JBool? ==> r == Ok(Some(o[key].b))
    ensures r.Mismatch? <==> key in o && o[key] != JNull && !o[key].JBool?
  {
    if key !in o || o[key] == JNull then Ok(None)
    else if o[key].JBool? then Ok(Some(o[key].b))
    else Mismatch
  }

  /** `decodeIfPresent` of a number. */
  function NumberIfPresent(o: map<string, Json>, key: string): (r: Decoded<Option<int>>)
    ensures (key !in o || o[key] == JNull) ==> r == Ok(None)
    ensures key in o && o[key].JNumber? ==> r == Ok(Some(o[key].n))
    ensures r.Mismatch? <==> key in o && o[key] != JNull && !o[key].JNumber?
  {
    if key !in o || o[key] == JNull then Ok(None)
    else if o[key].JNumber? then Ok(Some(o[key].n))
    else Mismatch
  }

  /** `decode(String.self, forKey:)`: a missing key or null throws. */
  function RequiredString(o: map<string, Json>, key: string): (r: Decoded<string>)
    ensures r.Ok? <==> key in o && o[key].JString?
    ensures r.Ok? ==> r.value == o[key].s
  {
    if key in o && o[key].JString? then Ok(o[key].s) else Mismatch
  }

  /** `decode` of a number (dates are numbers here). */
  function RequiredNumber(o: map<string, Json>, key: string): (r: Decoded<int>)
    ensures r.Ok? <==> key in o && o[key].JNumber?
    ensures r.Ok? ==> r.value == o[key].n
  {
    if key in o && o[key].JNumber? then Ok(o[key].n) else Mismatch
  }

  /** `encodeIfPresent` of a string: the key is written only for a present value. */
  function StringEntryIfPresent(key: string, v: Option<string>): (m: map<string, Json>)
    ensures v.None? ==> m == map[]
    ensures v.Some? ==> m == map[key := JString(v.value)]
  {
    if v.Some? then map[key := JString(v.value)] else map[]
  }
}
