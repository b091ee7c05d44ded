/** The values `JSON.parse` produces and `JSON.stringify` consumes.  The text
    form and the codec itself are not part of this model: where the
    application parses or prints JSON, the codec is a parameter. */
module Json {

  datatype JsonValue =
    | JNull
    | JBool(b: bool)
    | JNumber(n: real)
    | JString(s: string)
    | JArray(items: seq<JsonValue>)
    | JObject(fields: map<string, JsonValue>)
}
