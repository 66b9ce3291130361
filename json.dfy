/**
 * The JSON values that wire text is parsed into. Turning text into such a
 * value is the job of serde_json, which is not part of this model: the
 * operations that read text take the parser as a parameter of type `Parser`.
 */
module Json {
  import opened Wrappers

  datatype Json =
    | JNull
    | JBool(b: bool)
    | JNumber(n: int)
    | JString(s: string)
    | JArray(items: seq<Json>)
    | JObject(fields: map<string, Json>)

  /** Text to JSON value; `None` when the text is not well-formed JSON. */
  type Parser = string -> Option<Json>
}
