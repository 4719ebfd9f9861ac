/**
 * The dynamic values that both core files pass around: the payload of a
 * training task, the JSON a websocket client sends, and the replies built
 * from them.
 */
module JsonValues {

  /** A value as `json` decodes it (floating-point numbers are not modelled). */
  datatype Json =
    | JNull
    | JBool(b: bool)
    | JInt(i: int)
    | JStr(s: string)
    | JArray(items: seq<Json>)
    | JObject(fields: map<string, Json>)

  /** A Python `dict` with string keys. */
  type Dict = map<string, Json>

  /** Python truthiness: `None`, `False`, `0`, `""`, `[]` and `{}` are false. */
  predicate Truthy(v: Json) {
    match v
    case JNull => false
    case JBool(b) => b
    case JInt(i) => i != 0
    case JStr(s) => s != ""
    case JArray(items) => items != []
    case JObject(fields) => fields != map[]
  }

  /** `d.get(key, default)`. */
  function GetOr(d: Dict, key: string, default: Json): Json {
    if key in d then d[key] else default
  }

  /** `d.get(key)`, which yields `None` for a missing key. */
  function Get(d: Dict, key: string): Json {
    GetOr(d, key, JNull)
  }

  /**
   * The outcome of a call into a collaborator whose code is not part of
   * this model: it returns a value, or raises an exception whose `str` is
   * `message`.
   */
  datatype Attempt<+T> = Returned(value: T) | Raised(message: string)
}
