/**
 * JSON values as they cross the wire between the web client and the backend,
 * with the two JavaScript views of a value the code relies on: truthiness and
 * `typeof`.
 */
module JsonValues {
  import opened Wrappers

  datatype Json =
    | JNull
    | JBool(b: bool)
    | JNum(n: real)
    | JStr(s: string)
    | JArray(items: seq<Json>)
    | JObject(fields: map<string, Json>)

  /** JavaScript truthiness; `undefined` is a missing value and is falsy. */
  predicate Truthy(j: Json) {
    match j
    case JNull => false
    case JBool(b) => b
    case JNum(n) => n != 0.0
    case JStr(s) => s != ""
    case JArray(_) => true
    case JObject(_) => true
  }

  /** `typeof j === 'object'` (true of null and of arrays as well). */
  predicate IsObjectType(j: Json) {
    j.JNull? || j.JArray? || j.JObject?
  }

  /** Property access `j.name`; only objects carry named properties here. */
  function Property(j: Json, name: string): Option<Json> {
    if j.JObject? && name in j.fields then Some(j.fields[name]) else None
  }
}
