/** The JSON values a response body can be parsed into. */
module Json {
  import opened JsObject

  /** Numbers are kept integral; see README for what that leaves out. */
  datatype Json =
    | JNull
    | JBool(b: bool)
    | JNumber(n: int)
    | JString(s: string)
    | JArray(items: seq<Json>)
    | JObject(fields: Object<Json>)
}
