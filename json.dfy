/** JSON values as `encoding/json` decodes them into `interface{}`, and the codec the installer
    calls, taken as given: the model does not parse or pretty-print JSON text. */
module Json {
  import opened Wrappers

  /** Objects are Go maps (key order is not kept), arrays are slices, numbers are float64. */
  datatype JsonValue =
    | JNull
    | JBool(b: bool)
    | JNumber(n: real)
    | JString(s: string)
    | JArray(items: seq<JsonValue>)
    | JObject(fields: map<string, JsonValue>)

  /** `json.Unmarshal` into `interface{}` and `json.MarshalIndent(v, "", "  ")`, with their errors. */
  datatype JsonCodec = JsonCodec(
    unmarshal: string -> Result<JsonValue, string>,
    marshalIndent: JsonValue -> Result<string, string>)

  /** The name `encoding/json` uses for a value's kind in a type-mismatch error. */
  function KindName(v: JsonValue): string
  {
    match v
    case JNull => "null"
    case JBool(_) => "bool"
    case JNumber(_) => "number"
    case JString(_) => "string"
    case JArray(_) => "array"
    case JObject(_) => "object"
  }

  /** `json.Unmarshal(text, &m)` with `m` a `map[string]interface{}`: an object fills the map,
      `null` leaves it nil (empty), any other value is a type error. */
  function DecodeObject(codec: JsonCodec, text: string): (r: Result<map<string, JsonValue>, string>)
    ensures r.Success? <==> codec.unmarshal(text).Success? && (codec.unmarshal(text).value.JObject? || codec.unmarshal(text).value.JNull?)
    ensures codec.unmarshal(text) == Success(JNull) ==> r == Success(map[])
    ensures r.Success? && codec.unmarshal(text) != Success(JNull) ==> codec.unmarshal(text) == Success(JObject(r.value))
  {
    match codec.unmarshal(text)
    case Failure(e) => Failure(e)
    case Success(JObject(m)) => Success(m)
    case Success(JNull) => Success(map[])
    case Success(v) => Failure("json: cannot unmarshal " + KindName(v) + " into Go value of type map[string]interface {}")
  }

  /** The codec reads back what it writes, trailing newline included (Go's decoder skips trailing
      white space). A hypothesis of the lemmas that re-read a written file, not a fact proved here. */
  ghost predicate RoundTrips(codec: JsonCodec)
  {
    forall v: JsonValue, t: string :: codec.marshalIndent(v) == Success(t) ==> codec.unmarshal(t + "\n") == Success(v)
  }
}
