/**
 * The dynamically typed values that Go's encoding/json produces when it
 * decodes into interface{}: nil, bool, float64, string, []interface{} and
 * map[string]interface{}.
 */
module Json {
  import opened Wrappers

  /** A JSON number is kept as the (finite) float64 value the decoder produced. */
  datatype Json =
    | Null
    | Bool(b: bool)
    | Num(n: real)
    | Str(s: string)
    | Arr(items: seq<Json>)
    | Obj(fields: map<string, Json>)

  /**
   * Indexing a Go map[string]interface{}: a missing key yields the nil
   * interface, which is indistinguishable from a JSON null.
   */
  function Lookup(m: map<string, Json>, key: string): (v: Json)
    ensures key !in m ==> v == Null
    ensures key in m ==> v == m[key]
  {
    if key in m then m[key] else Null
  }

  /**
   * json.Unmarshal into a map[string]interface{}: an object gives its fields,
   * a top-level null leaves the map nil (no error), anything else fails.
   */
  function AsTopObject(parsed: Option<Json>): (r: Option<map<string, Json>>)
    ensures r.Some? <==> parsed.Some? && (parsed.value.Obj? || parsed.value.Null?)
    ensures r.Some? && parsed.value.Null? ==> r.value == map[]
    ensures r.Some? && parsed.value.Obj? ==> r.value == parsed.value.fields
  {
    match parsed
    case Some(Obj(m)) => Some(m)
    case Some(Null) => Some(map[])
    case _ => None
  }
}
