/**
 * Decoded JSON values, as the backend sees token claims (Python objects) and
 * as the pages see user records (JavaScript objects), with the truthiness each
 * language gives them.
 */
module Values {
  import opened Wrappers
  import Text

  datatype Json =
    | JNull
    | JBool(b: bool)
    | JNum(x: real)
    | JStr(s: string)
    | JList(items: seq<Json>)
    | JObject(fields: map<string, Json>)

  /** `m.get(key)` in Python and `m[key]` in JavaScript: a missing key reads as null. */
  function Get(m: map<string, Json>, key: string): Json {
    if key in m then m[key] else JNull
  }

  /** Python's `bool(v)`: None, False, zero and empty containers are false. */
  predicate PyTruthy(v: Json) {
    match v
    case JNull => false
    case JBool(b) => b
    case JNum(x) => x != 0.0
    case JStr(s) => s != ""
    case JList(items) => items != []
    case JObject(fields) => fields != map[]
  }

  /** JavaScript's `!!v`: null/undefined, false, zero and "" are false; arrays and objects are true. */
  predicate JsTruthy(v: Json) {
    match v
    case JNull => false
    case JBool(b) => b
    case JNum(x) => x != 0.0
    case JStr(s) => s != ""
    case JList(_) => true
    case JObject(_) => true
  }

  /**
   * Python's `item in v` for a string `item`: substring search in a string,
   * element equality in a list, key lookup in a dict. Numbers, booleans and
   * None raise TypeError, given as None.
   */
  function PyContains(v: Json, item: string): (r: Option<bool>)
    ensures r.None? <==> v.JNull? || v.JBool? || v.JNum?
    ensures v.JStr? ==> r == Some(exists k: nat :: Text.OccursAt(v.s, item, k))
    ensures v.JList? ==> r == Some(exists i :: 0 <= i < |v.items| && v.items[i] == JStr(item))
    ensures v.JObject? ==> r == Some(item in v.fields)
  {
    match v
    case JStr(s) => Some(Text.Contains(s, item))
    case JList(items) => Some(JStr(item) in items)
    case JObject(fields) => Some(item in fields)
    case _ => None
  }
}
