/** JSON documents as values. The JSON grammar itself is not modelled:
    `json.loads` is an oracle of type Parser, and `json.dumps(v)` is kept
    symbolic as the content `Dumped(v)` of a chat message. */
module Json {
  import opened Wrappers

  /** Numbers are integers here; floating point is not modelled. */
  datatype JsonValue =
    | JNull
    | JBool(b: bool)
    | JNumber(n: int)
    | JString(s: string)
    | JArray(items: seq<JsonValue>)
    | JObject(fields: map<string, JsonValue>)

  /** `json.loads`: None stands for a raised JSONDecodeError. */
  type Parser = string -> Option<JsonValue>
}
