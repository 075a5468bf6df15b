/** A decoded JSON value, as Go's `encoding/json` produces it when it
    unmarshals into `interface{}`: `nil`, `bool`, a number, `string`,
    `[]interface{}` or `map[string]interface{}`. A number is kept as the
    exact `real` it denotes; Go holds it as a `float64`, which rounds
    integers beyond 2^53. */
module Json {

  datatype Json =
    | JNull
    | JBool(b: bool)
    | JNumber(n: real)
    | JString(str: string)
    | JArray(items: seq<Json>)
    | JObject(members: map<string, Json>)
}
