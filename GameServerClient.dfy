/** The bot's HTTP client for one game server: how it normalises the server
    URL, the JSON payloads it sends, and how it turns a response into data
    or an error. Executing the request is I/O; the model takes the response
    (or the transport failure) as an input. */
module GameClient {
  import opened Common
  import opened Json

  datatype GameServerClient = GameServerClient(serverUrl: string, apiKey: string)

  /** The constructor drops one trailing '/', and only one. */
  function NewClient(serverUrl: string, apiKey: string): (c: GameServerClient)
    ensures c.apiKey == apiKey
    ensures EndsWith(serverUrl, "/") ==> c.serverUrl + "/" == serverUrl
    ensures !EndsWith(serverUrl, "/") ==> c.serverUrl == serverUrl
  {
    var url := if EndsWith(serverUrl, "/") then serverUrl[..|serverUrl| - 1] else serverUrl;
    GameServerClient(url, apiKey)
  }

  /** Normalising is not idempotent: of two trailing slashes one survives. */
  lemma OnlyOneSlashRemoved(base: string, apiKey: string)
    ensures NewClient(base + "//", apiKey).serverUrl == base + "/"
  {
    assert (base + "//")[..|base + "//"| - 1] == base + "/";
  }

  /** A request as the client issues it: the full URL, the two credential
      headers, and the JSON payload. */
  datatype ClientRequest = ClientRequest(url: string, apiKeyHeader: string, authorization: string, payload: JsonObject)

  function Post(c: GameServerClient, endpoint: string, payload: JsonObject): (r: ClientRequest)
    ensures r.url == c.serverUrl + endpoint && r.payload == payload
    ensures r.apiKeyHeader == c.apiKey
    ensures StartsWith(r.authorization, BEARER) && r.authorization[|BEARER|..] == c.apiKey
  {
    ClientRequest(c.serverUrl + endpoint, c.apiKey, BEARER + c.apiKey, payload)
  }

  // -----------------------------------------------------------------------
  // Payloads
  // -----------------------------------------------------------------------

  /** `payload.put(key, value)` for a String that may be null: Gson's default
      serialisation leaves null map values out of the JSON. */
  function PutString(payload: JsonObject, key: string, value: Option<string>): (r: JsonObject)
    ensures key in r <==> value.Some?
    ensures value.Some? ==> r[key] == JString(value.value)
    ensures forall k | k != key :: (k in r <==> k in payload) && (k in r ==> r[k] == payload[k])
  {
    if value.Some? then payload[key := JString(value.value)] else payload - {key}
  }

  const DEFAULT_MUTE_MINUTES: int := 60
  const DEFAULT_BAN_DAYS: int := 7

  function MutePlayer(c: GameServerClient, username: string, durationMinutes: int): ClientRequest {
    Post(c, "/mute", map["username" := JString(username), "duration" := JInteger(durationMinutes)])
  }

  /** `mutePlayer(username)`: sixty minutes. */
  function MutePlayerDefault(c: GameServerClient, username: string): (r: ClientRequest)
    ensures r.url == c.serverUrl + "/mute"
    ensures r.payload == map["username" := JString(username), "duration" := JInteger(60)]
  {
    MutePlayer(c, username, DEFAULT_MUTE_MINUTES)
  }

  function BanPlayer(c: GameServerClient, username: string, durationDays: int): ClientRequest {
    Post(c, "/ban", map["username" := JString(username), "duration" := JInteger(durationDays)])
  }

  /** `banPlayer(username)`: seven days. */
  function BanPlayerDefault(c: GameServerClient, username: string): (r: ClientRequest)
    ensures r.url == c.serverUrl + "/ban"
    ensures r.payload == map["username" := JString(username), "duration" := JInteger(7)]
  {
    BanPlayer(c, username, DEFAULT_BAN_DAYS)
  }

  function FindItem(c: GameServerClient, itemName: string): ClientRequest {
    Post(c, "/find-item", map["itemName" := JString(itemName)])
  }

  function LoginAi(c: GameServerClient, amount: int): ClientRequest {
    Post(c, "/loginai", map["amount" := JInteger(amount)])
  }

  function SendDiscordYell(c: GameServerClient, discordUsername: string, message: string): ClientRequest {
    Post(c, "/discord-yell", map["discordUsername" := JString(discordUsername), "message" := JString(message)])
  }

  /** The legacy `sendMessage`: the type is sent lower-cased, the message
      when there is one, and the player name only for the "Player" type (in
      any case). */
  function SendMessage(c: GameServerClient, messageType: string, playerName: Option<string>,
                       message: Option<string>): (r: ClientRequest)
    ensures r.url == c.serverUrl + "/api/admin/message"
    ensures "action" in r.payload && r.payload["action"] == JString("sendMessage")
    ensures "messageType" in r.payload && r.payload["messageType"] == JString(ToLower(messageType))
    ensures "playerName" in r.payload <==> EqualsIgnoreCase("Player", messageType) && playerName.Some?
    ensures "playerName" in r.payload ==> r.payload["playerName"] == JString(playerName.value)
    ensures "message" in r.payload <==> message.Some?
    ensures "message" in r.payload ==> r.payload["message"] == JString(message.value)
    ensures forall k | k in r.payload :: k == "action" || k == "messageType" || k == "message" || k == "playerName"
  {
    var lowered := ToLower(messageType);
    var base := map["action" := JString("sendMessage"), "messageType" := JString(lowered)];
    var withMessage := if message.Some? then base["message" := JString(message.value)] else base;
    var payload := if EqualsIgnoreCase("Player", messageType) && playerName.Some?
                   then withMessage["playerName" := JString(playerName.value)]
                   else withMessage;
    Post(c, "/api/admin/message", payload)
  }

  /** The legacy `executeCommand`: "Custom Command" (exactly) is sent as the
      "custom" command with the custom text; any other command name is sent
      lower-cased with spaces turned into underscores, plus its parameter
      when that is non-empty. */
  function ExecuteCommand(c: GameServerClient, command: string, param: Option<string>,
                          customCommand: Option<string>): (r: ClientRequest)
    ensures r.url == c.serverUrl + "/api/admin/command"
    ensures "action" in r.payload && r.payload["action"] == JString("executeCommand")
    ensures command == "Custom Command" ==>
      "command" in r.payload && r.payload["command"] == JString("custom") && "parameter" !in r.payload
      && ("customCommand" in r.payload <==> customCommand.Some?)
      && ("customCommand" in r.payload ==> r.payload["customCommand"] == JString(customCommand.value))
      && r.payload.Keys <= {"action", "command", "customCommand"}
    ensures command != "Custom Command" ==>
      "command" in r.payload && r.payload["command"] == JString(ReplaceChar(ToLower(command), ' ', '_'))
      && "customCommand" !in r.payload
      && ("parameter" in r.payload <==> param.Some? && param.value != "")
      && ("parameter" in r.payload ==> r.payload["parameter"] == JString(param.value))
      && r.payload.Keys <= {"action", "command", "parameter"}
  {
    var payload := map["action" := JString("executeCommand")];
    if command == "Custom Command" then
      var payload := payload["command" := JString("custom")];
      Post(c, "/api/admin/command", PutString(payload, "customCommand", customCommand))
    else
      var payload := payload["command" := JString(ReplaceChar(ToLower(command), ' ', '_'))];
      var payload := if param.Some? && param.value != "" then payload["parameter" := JString(param.value)]
                     else payload;
      Post(c, "/api/admin/command", payload)
  }

  /** The wire name of a command never contains a space or an upper-case
      ASCII letter. */
  lemma CommandNameNormalised(c: GameServerClient, command: string, param: Option<string>, customCommand: Option<string>)
    requires command != "Custom Command"
    ensures var name := ExecuteCommand(c, command, param, customCommand).payload["command"].s;
      forall i | 0 <= i < |name| :: name[i] != ' ' && !('A' <= name[i] <= 'Z')
  {
  }

  // -----------------------------------------------------------------------
  // Responses
  // -----------------------------------------------------------------------

  /** What Gson makes of a response body: `NotAnObject` covers malformed
      text, the literal `null` and JSON that is not an object. */
  datatype ParsedBody = NotAnObject | Object(fields: JsonObject)

  /** The error fields `parseErrorMessage` tries, in order. */
  const ERROR_KEYS: seq<string> := ["error", "message", "errorMessage"]

  /** `parseErrorMessage`. Null (None) for a blank body or an object with no
      error field; the raw body when parsing fails or the chosen field has no
      string form; otherwise the first error field present. */
  function ParseErrorMessage(body: string, parsed: ParsedBody): (r: Option<string>)
    ensures IsBlank(body) ==> r.None?
    ensures !IsBlank(body) && parsed.NotAnObject? ==> r == Some(body)
    ensures !IsBlank(body) && parsed.Object? ==>
      var k := FirstWhere(ERROR_KEYS, (key: string) => key in parsed.fields);
      if k.None? then r.None?
      else
        var v := AsString(parsed.fields[ERROR_KEYS[k.value]]);
        r == if v.Some? then v else Some(body)
  {
    if IsBlank(body) then None
    else match parsed
      case NotAnObject => Some(body)
      case Object(fields) =>
        if "error" in fields then OrBody(AsString(fields["error"]), body)
        else if "message" in fields then OrBody(AsString(fields["message"]), body)
        else if "errorMessage" in fields then OrBody(AsString(fields["errorMessage"]), body)
        else None
  }

  /** getAsString's exception is caught and the raw body returned instead. */
  function OrBody(v: Option<string>, body: string): Option<string> {
    if v.Some? then v else Some(body)
  }

  /** "error" takes priority over the other two fields whatever they hold. */
  lemma ErrorFieldFirst(body: string, fields: JsonObject, text: string)
    requires !IsBlank(body) && "error" in fields && fields["error"] == JString(text)
    ensures ParseErrorMessage(body, Object(fields)) == Some(text)
  {
  }

  /** "message" is used only when "error" is absent. */
  lemma MessageFieldSecond(body: string, fields: JsonObject, text: string)
    requires !IsBlank(body) && "error" !in fields && "message" in fields && fields["message"] == JString(text)
    ensures ParseErrorMessage(body, Object(fields)) == Some(text)
  {
  }

  /** `parseResponseData`: the "data" object, and an empty map otherwise. */
  function ParseResponseData(body: string, parsed: ParsedBody): (r: JsonObject)
    ensures !IsBlank(body) && parsed.Object? && "data" in parsed.fields && parsed.fields["data"].JObject?
      ==> r == parsed.fields["data"].fields
    ensures !(!IsBlank(body) && parsed.Object? && "data" in parsed.fields && parsed.fields["data"].JObject?)
      ==> r == map[]
  {
    if !IsBlank(body) && parsed.Object? && "data" in parsed.fields && parsed.fields["data"].JObject?
    then parsed.fields["data"].fields
    else map[]
  }

  /** How `httpClient.execute` ended: a response, or a transport IOException. */
  datatype Exchange =
    | Response(status: int, body: string, parsed: ParsedBody)
    | Unreachable(message: string)

  /** `sendPostRequestWithResponse` once the request has been executed. */
  function SendPostRequestWithResponse(exchange: Exchange): (r: Result<JsonObject>)
    ensures exchange.Unreachable? ==> r == Err(exchange.message)
    ensures exchange.Response? ==> (r.Ok? <==> 200 <= exchange.status < 300)
    ensures exchange.Response? && r.Ok? ==> r.value == ParseResponseData(exchange.body, exchange.parsed)
    ensures exchange.Response? && r.Err? ==>
      var parsed := ParseErrorMessage(exchange.body, exchange.parsed);
      r.error == if parsed.Some? && parsed.value != "" then parsed.value
                 else "Server returned status code: " + IntToString(exchange.status)
  {
    match exchange
    case Unreachable(message) => Err(message)
    case Response(status, body, parsed) =>
      if status < 200 || status >= 300 then
        var errorMessage := ParseErrorMessage(body, parsed);
        if errorMessage.Some? && errorMessage.value != "" then Err(errorMessage.value)
        else Err("Server returned status code: " + IntToString(status))
      else Ok(ParseResponseData(body, parsed))
  }

  /** A rejected request always carries a non-empty error text, even when
      the server's own error field is the empty string. */
  lemma RejectionNeverSilent(status: int, body: string, parsed: ParsedBody)
    requires !(200 <= status < 300)
    ensures SendPostRequestWithResponse(Response(status, body, parsed)).Err?
    ensures SendPostRequestWithResponse(Response(status, body, parsed)).error != ""
  {
  }

  /** An empty "error" field falls back to the status text. */
  lemma EmptyErrorFieldFallsBack(status: int, body: string, fields: JsonObject)
    requires !(200 <= status < 300) && !IsBlank(body)
    requires "error" in fields && fields["error"] == JString("")
    ensures SendPostRequestWithResponse(Response(status, body, Object(fields)))
         == Err("Server returned status code: " + IntToString(status))
  {
  }
}
