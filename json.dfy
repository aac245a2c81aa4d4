/** The JSON values the service exchanges with the model and the ISP API.
  * Numbers are integers here; JSON's fractional numbers are not modelled. */
module Json {
  datatype Json =
    | JNull
    | JBool(b: bool)
    | JNum(n: int)
    | JStr(s: string)
    | JArr(items: seq<Json>)
    | JObj(fields: map<string, Json>)

  type JsonObject = map<string, Json>

  /** `obj.get(key, default)` on a parsed JSON object. */
  function Get(obj: JsonObject, key: string, default: Json): (r: Json)
    ensures key in obj ==> r == obj[key]
    ensures key !in obj ==> r == default
  {
    if key in obj then obj[key] else default
  }

  /** Python truthiness of a parsed value: null, false, 0 and empty strings,
    * lists and objects are false. */
  predicate Truthful(v: Json) {
    match v
    case JNull => false
    case JBool(b) => b
    case JNum(n) => n != 0
    case JStr(s) => s != []
    case JArr(items) => items != []
    case JObj(fields) => fields != map[]
  }
}
