/** Decoded JSON values, as Python's `json` module hands them to the program. */
module Json {

  /** Numbers are integers only; floating point is not modelled. */
  datatype JsonValue =
    | JNull
    | JBool(b: bool)
    | JNum(n: int)
    | JStr(s: string)
    | JArr(items: seq<JsonValue>)
    | JObj(members: map<string, JsonValue>)

  /** Python's truth value of a decoded JSON value (`if v:`). */
  predicate Truthy(v: JsonValue) {
    match v
    case JNull => false
    case JBool(b) => b
    case JNum(n) => n != 0
    case JStr(s) => s != ""
    case JArr(items) => items != []
    case JObj(m) => m != map[]
  }

  /** Python's `m.get(key, default)` on a decoded object. */
  function GetOr(m: map<string, JsonValue>, key: string, default: JsonValue): JsonValue {
    if key in m then m[key] else default
  }
}
