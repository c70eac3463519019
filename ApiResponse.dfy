/** The game API's response envelope: a success flag, a message and an
    optional data object, and the JSON object `toJson` serialises. Only the
    object is modelled, not the text json-simple prints for it. */
module ApiResponses {
  import opened Common
  import opened Json

  /** The private constructor's three fields, read back by `isSuccess`,
      `getMessage` and `getData`. */
  datatype ApiResponse = ApiResponse(success: bool, message: string, data: Option<JsonObject>)

  /** `success(message)`: successful, without data. */
  function Success(message: string): (r: ApiResponse)
    ensures r.success && r.message == message && r.data.None?
  {
    ApiResponse(true, message, None)
  }

  /** `success(message, data)`; a null `data` gives the same response as
      `success(message)`. */
  function SuccessWith(message: string, data: Option<JsonObject>): (r: ApiResponse)
    ensures r.success && r.message == message && r.data == data
    ensures data.None? ==> r == Success(message)
  {
    ApiResponse(true, message, data)
  }

  /** `error(message)`: failed, and never with data. */
  function Error(message: string): (r: ApiResponse)
    ensures !r.success && r.message == message && r.data.None?
  {
    ApiResponse(false, message, None)
  }

  /** The object `toJson` builds: "success" and "message" always, "data"
      exactly when there is data. */
  function ToJson(r: ApiResponse): (j: JsonObject)
    ensures j.Keys == {"success", "message"} + (if r.data.Some? then {"data"} else {})
    ensures j["success"] == JBool(r.success) && j["message"] == JString(r.message)
    ensures r.data.Some? ==> j["data"] == JObject(r.data.value)
  {
    var j := map["success" := JBool(r.success), "message" := JString(r.message)];
    if r.data.Some? then j["data" := JObject(r.data.value)] else j
  }

  /** How a reader of the JSON recovers the response: None for an object
      that is not shaped like one. */
  function FromJson(j: JsonObject): (r: Option<ApiResponse>)
    ensures r.Some? ==> "success" in j && j["success"] == JBool(r.value.success)
    ensures r.Some? ==> "message" in j && j["message"] == JString(r.value.message)
  {
    if "success" in j && j["success"].JBool? && "message" in j && j["message"].JString? then
      if "data" !in j then Some(ApiResponse(j["success"].b, j["message"].s, None))
      else if j["data"].JObject? then Some(ApiResponse(j["success"].b, j["message"].s, Some(j["data"].fields)))
      else None
    else None
  }

  /** Serialising loses nothing: the response is read back from its JSON. */
  lemma JsonRoundTrip(r: ApiResponse)
    ensures FromJson(ToJson(r)) == Some(r)
  {
  }

  /** Different responses serialise differently. */
  lemma ToJsonInjective(a: ApiResponse, b: ApiResponse)
    requires ToJson(a) == ToJson(b)
    ensures a == b
  {
    JsonRoundTrip(a);
    JsonRoundTrip(b);
  }
}
