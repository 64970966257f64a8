// JSON values as Go's encoding/json hands them to the program (`any`).
module Json {
  import opened Wrappers

  // A number is a float64: its part truncated towards zero, and a code for what
  // the truncation drops, which is 0 exactly for integral values.
  datatype Json =
    | Null
    | Bool(b: bool)
    | Number(whole: int, fraction: nat)
    | String(s: string)
    | Array(items: seq<Json>)
    | Object(fields: Fields)

  type Fields = map<string, Json>

  function Int(n: int): Json { Number(n, 0) }

  // Indexing a Go map: a missing key and a JSON null are both nil.
  function Get(o: Fields, key: string): Json {
    if key in o then o[key] else Null
  }

  // value.(string), with "" for every other type.
  function Text(v: Json): string {
    if v.String? then v.s else ""
  }

  function Field(o: Fields, key: string): string { Text(Get(o, key)) }

  predicate IsTrue(v: Json) { v == Bool(true) }

  function Strings(ss: seq<string>): Json {
    Array(seq(|ss|, i requires 0 <= i < |ss| => String(ss[i])))
  }

  // json.Unmarshal into a map[string]any: null leaves the nil map, any other
  // value that is not an object is an error.
  function AsMap(v: Json): Option<Fields> {
    match v
    case Object(fields) => Some(fields)
    case Null => Some(map[])
    case _ => None
  }

  // The list under a key, and nothing when there is none.
  function Items(o: Fields, key: string): seq<Json> {
    if key in o && o[key].Array? then o[key].items else []
  }

  // The object under a key, and the empty one when there is none.
  function Part(o: Fields, key: string): Fields {
    if key in o && o[key].Object? then o[key].fields else map[]
  }

  predicate Has(o: Fields, key: string, value: Json) { key in o && o[key] == value }
}
