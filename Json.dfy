/** Parsed JSON values, as Gson's JsonElement and json-simple's objects
    present them after parsing. Parsing itself is not modelled: where the
    source parses text, the model takes the parsed value (or the fact that
    parsing failed) as an input. */
module Json {
  import opened Common

  datatype JsonValue =
    | JNull
    | JBool(b: bool)
    | JNumber(n: int)        // an integral number as the parser produced it (json-simple: a Long)
    | JInteger(n: int)       // a boxed java.lang.Integer put into a map by Java code
    | JString(s: string)
    | JArray(items: seq<JsonValue>)
    | JObject(fields: map<string, JsonValue>)

  type JsonObject = map<string, JsonValue>

  /** Gson's JsonElement.getAsString(): a primitive gives its text, a
      one-element array delegates to its element, and JSON null, objects and
      other arrays throw (None). */
  function AsString(v: JsonValue): Option<string>
  {
    match v
    case JNull => None
    case JBool(b) => Some(if b then "true" else "false")
    case JNumber(n) => Some(IntToString(n))
    case JInteger(n) => Some(IntToString(n))
    case JString(s) => Some(s)
    case JArray(items) => if |items| == 1 then AsString(items[0]) else None
    case JObject(_) => None
  }

  /** `map.get(key)` on a parsed object: null (None) for a missing key and
      for a key holding JSON null. */
  function Get(obj: JsonObject, key: string): (r: Option<JsonValue>)
    ensures r.Some? <==> key in obj && !obj[key].JNull?
    ensures r.Some? ==> r.value == obj[key]
  {
    if key in obj && !obj[key].JNull? then Some(obj[key]) else None
  }
}
