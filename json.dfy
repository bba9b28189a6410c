/**
 * JSON values as the bridge sees them after `JSON.parse`, and the three
 * JavaScript idioms the bridge builds its records with: optional chaining
 * (`m?.key`), the `||` fallback and object spread (`{...m}`).
 */
module Json {
  import opened Wrappers

  /** A parsed JSON value; numbers are finite, so `real` holds every one. */
  datatype Json =
    | JNull
    | JBool(b: bool)
    | JNum(n: real)
    | JStr(s: string)
    | JArr(items: seq<Json>)
    | JObj(fields: map<string, Json>)

  /** JavaScript truthiness; `None` is `undefined`, which is falsy. */
  predicate Truthy(v: Option<Json>)
  {
    v.Some? &&
    match v.value
    case JNull => false
    case JBool(b) => b
    case JNum(n) => n != 0.0
    case JStr(s) => s != []
    case JArr(_) => true
    case JObj(_) => true
  }

  /** `m?.key`: `undefined` when the object or the key is missing. */
  function Get(m: Option<map<string, Json>>, key: string): Option<Json>
  {
    if m.Some? && key in m.value then Some(m.value[key]) else None
  }

  /** `v || fallback` */
  function Or(v: Option<Json>, fallback: Json): Json
  {
    if Truthy(v) then v.value else fallback
  }

  /** The entries `{...m}` contributes; spreading `undefined` contributes none. */
  function Spread(m: Option<map<string, Json>>): map<string, Json>
  {
    if m.Some? then m.value else map[]
  }

  /** The JSON form of a string-to-string dictionary. */
  function StringMap(m: map<string, string>): (j: Json)
    ensures j.JObj? && j.fields.Keys == m.Keys
    ensures forall k :: k in m ==> j.fields[k] == JStr(m[k])
  {
    JObj(map k | k in m :: JStr(m[k]))
  }
}
