/**
 * The decoded JSON values that travel over the broker and sit in the
 * key-value store, with Python's truthiness and `dict.get` on them.
 */
module Json {

  /** A value `json.loads` can return (floating-point numbers are not modelled). */
  datatype Json =
    | JNull
    | JBool(b: bool)
    | JInt(i: int)
    | JStr(s: string)
    | JArray(items: seq<Json>)
    | JObject(fields: map<string, Json>)

  /** Python's `bool(v)`: `None`, `False`, `0`, `""`, `[]` and `{}` are false. */
  predicate Truthy(v: Json) {
    match v
    case JNull => false
    case JBool(b) => b
    case JInt(i) => i != 0
    case JStr(s) => s != ""
    case JArray(items) => items != []
    case JObject(fields) => fields != map[]
  }

  /** `d.get(key)` on a JSON object: a missing key and an explicit `null` both give `None`. */
  function Get(fields: map<string, Json>, key: string): (v: Json)
    ensures key !in fields ==> v == JNull
    ensures key in fields ==> v == fields[key]
  {
    if key in fields then fields[key] else JNull
  }
}
