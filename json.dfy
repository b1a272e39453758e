// The dynamic values behind Go's map[string]interface{} responses and
// metadata documents.
module Json {

  /** A JSON-encodable value; a time.Time is kept as its instant. */
  datatype JsonValue =
    | JNull
    | JBool(b: bool)
    | JInt(i: int)
    | JNumber(r: real)
    | JString(s: string)
    | JTime(instant: int)
    | JArray(items: seq<JsonValue>)
    | JObject(fields: map<string, JsonValue>)

  /** `fields` holds `v` under `key`. */
  predicate HasField(fields: map<string, JsonValue>, key: string, v: JsonValue)
  {
    key in fields && fields[key] == v
  }
}
