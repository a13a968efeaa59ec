/**
 * Decoded JSON values as the gateway client sees them after `r.json()`,
 * and the two Python idioms the core applies to them: truthiness and `dict.get`.
 * JSON numbers are integers here; the gateway's fields used by the core are
 * strings, integers and booleans.
 */
module Json {
  datatype Json =
    | JNull
    | JBool(b: bool)
    | JInt(i: int)
    | JStr(s: string)
    | JList(items: seq<Json>)
    | JDict(fields: map<string, Json>)

  /** Python truthiness of a decoded value (`if v:`, `v or default`). */
  predicate Truthy(j: Json) {
    match j
    case JNull => false
    case JBool(b) => b
    case JInt(i) => i != 0
    case JStr(s) => s != ""
    case JList(items) => items != []
    case JDict(fields) => fields != map[]
  }

  /** `d.get(k)`: the value stored under `k`, or `None` when the key is missing. */
  function Get(d: map<string, Json>, k: string): Json {
    if k in d then d[k] else JNull
  }
}
