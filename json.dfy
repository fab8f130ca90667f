/**
 * Parsed JSON values as the client sees them after `response.json()`, and
 * the dictionary accessors the workflows use on response bodies.
 */
module JsonModel {

  datatype Json =
    | JNull
    | JBool(b: bool)
    | JNumber(n: real)
    | JString(s: string)
    | JArray(items: seq<Json>)
    | JObject(fields: map<string, Json>)

  /** A JSON object, the shape of every response body the client reads. */
  type JsonObject = map<string, Json>

  /** Python's `obj.get(key, default)`. */
  function GetFieldOr(obj: JsonObject, key: string, default: Json): (v: Json)
    ensures key in obj ==> v == obj[key]
    ensures key !in obj ==> v == default
  {
    if key in obj then obj[key] else default
  }

  /** Python's `obj.get(key)`: a missing key reads as `None` (JSON null). */
  function GetField(obj: JsonObject, key: string): (v: Json)
    ensures key !in obj ==> v == JNull
    ensures key in obj ==> v == obj[key]
  {
    GetFieldOr(obj, key, JNull)
  }
}
