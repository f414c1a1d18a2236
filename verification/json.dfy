/**
 * A JSON value as produced by `JSON.parse` and consumed by `JSON.stringify`.
 * The gateway never looks inside these values: it only carries them from one
 * protocol to the other. Numbers are integers here; fractional forms are not modelled.
 */
module Json {

  datatype Json =
    | JNull
    | JBool(b: bool)
    | JNumber(n: int)
    | JString(s: string)
    | JArray(items: seq<Json>)
    | JObject(fields: seq<(string, Json)>)
}
