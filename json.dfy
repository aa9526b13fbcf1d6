/**
 * The JSON values that the client builds as request bodies and reads back
 * from responses. A decoded JSON `null` is Python's `None`.
 */
module JsonValue {
  import opened Wrappers
  import opened Decimal

  datatype Json =
    | JNull
    | JBool(b: bool)
    | JInt(n: int)
    | JStr(s: string)
    | JArray(items: seq<Json>)
    | JObject(fields: map<string, Json>)

  /** The values whose `str()` form the model describes. */
  predicate IsScalar(j: Json) {
    j.JNull? || j.JBool? || j.JInt? || j.JStr?
  }

  /** Python's `str()` of a scalar value. */
  function StrForm(j: Json): (s: string)
    requires IsScalar(j)
    ensures j.JStr? ==> s == j.s
    ensures j.JInt? ==> ParseInt(s) == Some(j.n)
  {
    match j
    case JNull => "None"
    case JBool(b) => if b then "True" else "False"
    case JInt(n) => IntToStringRoundTrip(n); IntToString(n)
    case JStr(s) => s
  }
}
