/**
 * JSON values as the services exchange them, and the rules by which Go's
 * encoding/json fills a typed field from one: an absent key or `null` leaves
 * the field at its zero value, a value of the wrong type is an error.
 * Numbers are integers here (see README, "Left out").
 */
module Json {
  import opened Wrappers
  import opened Strconv

  datatype Json =
    | JNull
    | JBool(b: bool)
    | JNum(n: int)
    | JStr(s: string)
    | JArr(items: seq<Json>)
    | JObj(fields: map<string, Json>)

  /** The member `key` of an object, `null` when it is absent. */
  function Field(m: map<string, Json>, key: string): Json {
    if key in m then m[key] else JNull
  }

  /** Decoding into an `int64` field. */
  function AsInt64(j: Json): Option<Int64> {
    match j
    case JNull => Some(0)
    case JNum(n) => if MinInt64 <= n <= MaxInt64 then Some(n) else None
    case _ => None
  }

  /** Decoding into a `string` field. */
  function AsString(j: Json): Option<string> {
    match j
    case JNull => Some("")
    case JStr(s) => Some(s)
    case _ => None
  }

  /** Decoding into a `bool` field. */
  function AsBool(j: Json): Option<bool> {
    match j
    case JNull => Some(false)
    case JBool(b) => Some(b)
    case _ => None
  }
}
