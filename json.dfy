/**
 * The JSON value tree that kotlinx.serialization's `Json` format produces
 * and consumes. An object is a map from member names to values: the
 * decoder looks members up by name, so their written order does not matter.
 */
module Json {

  datatype Json =
    | JNull
    | JBool(b: bool)
    | JNumber(n: real)
    | JString(s: string)
    | JArray(items: seq<Json>)
    | JObject(members: map<string, Json>)
}
