/**
 * JSON values as JavaScript code sees them after JSON.parse, JavaScript
 * truthiness over them, and the Option/Result wrappers used by every module.
 * An absent property (JavaScript `undefined`) is `None`.
 */
module Json {

  datatype Option<+T> = None | Some(value: T)

  datatype Result<+T, +E> = Ok(value: T) | Err(error: E)

  /** A parsed JSON value. Numbers are integers here (see README, "Left out"). */
  datatype Json =
    | JNull
    | JBool(b: bool)
    | JNum(n: int)
    | JStr(s: string)
    | JArr(items: seq<Json>)
    | JObj(fields: map<string, Json>)

  /** JavaScript truthiness: null, false, 0 and "" are falsy; arrays and objects never are. */
  predicate Truthy(v: Json) {
    match v
    case JNull => false
    case JBool(b) => b
    case JNum(n) => n != 0
    case JStr(s) => s != ""
    case JArr(_) => true
    case JObj(_) => true
  }

  /** An optional value used as a JavaScript condition: present and truthy. */
  predicate Present(v: Option<Json>) {
    v.Some? && Truthy(v.value)
  }

  /** `s || fallback` for an optional string property. */
  function StringOr(s: Option<string>, fallback: string): string {
    if s.Some? && s.value != "" then s.value else fallback
  }

  /** Property access `v.key`: only an object has named properties. */
  function Field(v: Json, key: string): Option<Json> {
    if v.JObj? && key in v.fields then Some(v.fields[key]) else None
  }
}
