/**
 * A decoded JSON document, as Go's `encoding/json` hands it to the program:
 * `nil`, `bool`, `float64`, `string`, `[]interface{}` and
 * `map[string]interface{}`.
 */
module JsonValue {

  datatype Json =
    | JNull
    | JBool(b: bool)
    | JNum(n: real)
    | JStr(s: string)
    | JArr(items: seq<Json>)
    | JObj(fields: map<string, Json>)

  /** Go's `obj[key]`: a missing key reads as `nil`, exactly like a JSON null. */
  function Lookup(obj: map<string, Json>, key: string): (r: Json)
    ensures key !in obj ==> r == JNull
    ensures key in obj ==> r == obj[key]
  {
    if key in obj then obj[key] else JNull
  }

  /** Go's `int(f)` conversion of a float: truncation toward zero. */
  function Trunc(f: real): (r: int)
    ensures 0.0 <= f ==> r as real <= f < r as real + 1.0
    ensures f < 0.0 ==> r as real - 1.0 < f <= r as real
  {
    if f >= 0.0 then f.Floor else -((-f).Floor)
  }
}
