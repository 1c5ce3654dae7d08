/**
 * An already-parsed JSON document, in the shape Python's `json.load`
 * hands it to the link extractor: objects are dictionaries (one value per
 * key, the parser keeps the last of any duplicate key), arrays are lists.
 */
module Json {

  datatype Json =
    | JNull
    | JBool(b: bool)
    | JNumber(n: real)
    | JString(str: string)
    | JArray(items: seq<Json>)
    | JObject(fields: map<string, Json>)
}
