/** The inbound side of the yell relay: the HTTP endpoint the game servers
    POST yell messages to. A request passes a fixed chain of checks and, if
    all pass, exactly one formatted message is put on the outbound queue.

    The HTTP exchange is reduced to the request's method, its Authorization
    header and its parsed body; the Discord channels the bot can see are a
    set of ids. */
module YellIngestion {
  import opened Common
  import opened Json
  import opened ServerConfigs
  import opened YellQueue

  /** The request body as `gson.fromJson(body, JsonObject.class)` sees it:
      `Unparsable` stands for malformed JSON, an empty body (Gson returns
      null) and a JSON value that is not an object. */
  datatype RequestBody = Unparsable | JsonBody(fields: JsonObject)

  datatype YellRequest = YellRequest(httpMethod: string, authorization: Option<string>, body: RequestBody)

  /** Why a request was turned away. */
  datatype Rejection =
    | MethodNotAllowed
    | MissingAuthorization
    | InvalidApiKey
    | MessageRequired
    | ServerNotFound(serverName: string)
    | ChannelNotFound(forServer: string)
    | InternalError          // an exception reached the handler's catch-all

  datatype Reply =
    | Queued(channel: ChannelId, text: string)
    | Rejected(rejection: Rejection)

  /** The HTTP status of each reply. */
  function Status(r: Reply): (code: int)
    ensures code == 200 <==> r.Queued?
  {
    match r
    case Queued(_, _) => 200
    case Rejected(MethodNotAllowed) => 405
    case Rejected(MissingAuthorization) => 401
    case Rejected(InvalidApiKey) => 401
    case Rejected(MessageRequired) => 400
    case Rejected(ServerNotFound(_)) => 400
    case Rejected(ChannelNotFound(_)) => 500
    case Rejected(InternalError) => 500
  }

  /** `findServerByApiKey`: asking the bot configuration for its key throws
      when none is configured (Err); a matching key resolves to the first
      configured server, and to nothing when the list is empty. */
  function FindServerByApiKey(configuredApiKey: Result<string>, servers: seq<ServerConfig>, apiKey: string)
    : (r: Result<Option<ServerConfig>>)
    ensures configuredApiKey.Err? <==> r.Err?
    ensures r.Ok? ==> (r.value.Some? <==> configuredApiKey.value == apiKey && |servers| > 0)
    ensures r.Ok? && r.value.Some? ==> r.value.value == servers[0]
  {
    if configuredApiKey.Err? then Err(configuredApiKey.error)
    else if configuredApiKey.value == apiKey then
      if |servers| == 0 then Ok(None) else Ok(Some(servers[0]))
    else Ok(None)
  }

  /** The bold server tag that opens every relayed line. */
  function Tag(serverName: string): string {
    "**[" + serverName + "]** "
  }

  /** `formatYellMessage`: the tag, then "player: " when the player name is
      present and not blank, then the whole message. */
  function FormatYellMessage(serverName: string, playerName: Option<string>, message: string): (r: string)
    ensures StartsWith(r, Tag(serverName))
    ensures EndsWith(r, message)
    ensures |r| == |Tag(serverName)| + |message| + (if IsPresent(playerName) then |playerName.value| + 2 else 0)
  {
    if IsPresent(playerName) then Tag(serverName) + playerName.value + ": " + message
    else Tag(serverName) + message
  }

  /** Nothing of the message is lost: it follows the tag and the optional
      sender at a position determined by those two alone. */
  lemma FormattedMessageIntact(serverName: string, playerName: Option<string>, message: string)
    ensures var head := Tag(serverName) + (if IsPresent(playerName) then playerName.value + ": " else "");
      FormatYellMessage(serverName, playerName, message) == head + message
  {
    if IsPresent(playerName) {
      assert Tag(serverName) + playerName.value + ": " + message
          == Tag(serverName) + (playerName.value + ": ") + message;
    }
  }

  /** `json.has(key) ? json.get(key).getAsString() : null`, where
      getAsString throws (Err) on JSON null, objects and multi-element arrays. */
  function StringField(fields: JsonObject, key: string): (r: Result<Option<string>>)
    ensures key !in fields ==> r == Ok(None)
    ensures key in fields ==> (r.Ok? <==> AsString(fields[key]).Some?)
    ensures key in fields && r.Ok? ==> r.value == AsString(fields[key])
  {
    if key !in fields then Ok(None)
    else
      var s := AsString(fields[key]);
      if s.Some? then Ok(s) else Err("getAsString")
  }

  /** `YellHandler.handle` as a decision chain.
      `knownChannels` holds the ids `jda.getTextChannelById` resolves. */
  function HandleRequest(req: YellRequest, configuredApiKey: Result<string>,
                         servers: seq<ServerConfig>, knownChannels: set<ChannelId>): (r: Reply)
    ensures r.Queued? ==> EqualsIgnoreCase("POST", req.httpMethod) && Authorized(req, configuredApiKey, servers)
    ensures r.Queued? ==> r.channel in knownChannels
  {
    if !EqualsIgnoreCase("POST", req.httpMethod) then Rejected(MethodNotAllowed)
    else if req.authorization.None? || !StartsWith(req.authorization.value, BEARER) then
      Rejected(MissingAuthorization)
    else
      var apiKey := req.authorization.value[|BEARER|..];
      var byKey := FindServerByApiKey(configuredApiKey, servers, apiKey);
      if byKey.Err? then Rejected(InternalError)
      else if byKey.value.None? then Rejected(InvalidApiKey)
      else if req.body.Unparsable? then Rejected(InternalError)
      else
        var message := StringField(req.body.fields, "message");
        var playerName := StringField(req.body.fields, "playerName");
        var serverName := StringField(req.body.fields, "serverName");
        if message.Err? || playerName.Err? || serverName.Err? then Rejected(InternalError)
        else if !IsPresent(message.value) then Rejected(MessageRequired)
        else
          var target := if IsPresent(serverName.value)
                        then ServerByName(servers, serverName.value.value)
                        else byKey.value;
          if target.None? then Rejected(ServerNotFound(serverName.value.value))
          else
            var server := target.value;
            if server.channelId.None? then Rejected(InternalError)   // a null id makes the channel lookup throw
            else if server.channelId.value !in knownChannels then
              Rejected(ChannelNotFound(server.name))
            else
              Queued(server.channelId.value, FormatYellMessage(server.name, playerName.value, message.value.value))
  }

  // -----------------------------------------------------------------------
  // Properties of the decision chain
  // -----------------------------------------------------------------------

  /** Well-formed authorisation: a Bearer header carrying the configured key,
      with at least one server configured. */
  predicate Authorized(req: YellRequest, configuredApiKey: Result<string>, servers: seq<ServerConfig>) {
    req.authorization.Some? && StartsWith(req.authorization.value, BEARER)
    && configuredApiKey.Ok? && configuredApiKey.value == req.authorization.value[|BEARER|..]
    && |servers| > 0
  }

  /** The server a readable body addresses: the named one when a server
      name is given, else the first configured server. */
  function Addressed(fields: JsonObject, servers: seq<ServerConfig>): Option<ServerConfig>
    requires |servers| > 0
  {
    var serverName := StringField(fields, "serverName");
    if serverName.Ok? && IsPresent(serverName.value) then ServerByName(servers, serverName.value.value)
    else Some(servers[0])
  }

  /** A request is queued exactly when every check passes, and what is queued
      is the formatted message for the addressed server's channel. */
  lemma QueuedIff(req: YellRequest, configuredApiKey: Result<string>,
                  servers: seq<ServerConfig>, knownChannels: set<ChannelId>)
    ensures var r := HandleRequest(req, configuredApiKey, servers, knownChannels);
      r.Queued? <==>
        EqualsIgnoreCase("POST", req.httpMethod) && Authorized(req, configuredApiKey, servers)
        && req.body.JsonBody?
        && StringField(req.body.fields, "message").Ok?
        && StringField(req.body.fields, "playerName").Ok?
        && StringField(req.body.fields, "serverName").Ok?
        && IsPresent(StringField(req.body.fields, "message").value)
        && Addressed(req.body.fields, servers).Some?
        && Addressed(req.body.fields, servers).value.channelId.Some?
        && Addressed(req.body.fields, servers).value.channelId.value in knownChannels
    ensures var r := HandleRequest(req, configuredApiKey, servers, knownChannels);
      r.Queued? ==>
        var server := Addressed(req.body.fields, servers).value;
        r.channel == server.channelId.value
        && r.text == FormatYellMessage(server.name, StringField(req.body.fields, "playerName").value,
                                       StringField(req.body.fields, "message").value.value)
  {
    var r := HandleRequest(req, configuredApiKey, servers, knownChannels);
    if EqualsIgnoreCase("POST", req.httpMethod) && req.authorization.Some? && StartsWith(req.authorization.value, BEARER) {
      var apiKey := req.authorization.value[|BEARER|..];
      var byKey := FindServerByApiKey(configuredApiKey, servers, apiKey);
      if byKey.Ok? && byKey.value.Some? {
        assert byKey.value.value == servers[0];
      }
    }
  }

  /** A non-POST request is answered 405 whatever else it carries. */
  lemma NonPostRejected(req: YellRequest, configuredApiKey: Result<string>,
                        servers: seq<ServerConfig>, knownChannels: set<ChannelId>)
    requires !EqualsIgnoreCase("POST", req.httpMethod)
    ensures Status(HandleRequest(req, configuredApiKey, servers, knownChannels)) == 405
  {
  }

  /** A POST without a Bearer header, or whose key differs from the
      configured one, or arriving while no server is configured, is answered
      401, and the body is never looked at. */
  lemma UnauthorizedIgnoresBody(req: YellRequest, body: RequestBody, configuredApiKey: Result<string>,
                                servers: seq<ServerConfig>, knownChannels: set<ChannelId>)
    requires EqualsIgnoreCase("POST", req.httpMethod) && configuredApiKey.Ok?
    requires !Authorized(req, configuredApiKey, servers)
    ensures Status(HandleRequest(req, configuredApiKey, servers, knownChannels)) == 401
    ensures HandleRequest(req, configuredApiKey, servers, knownChannels)
         == HandleRequest(req.(body := body), configuredApiKey, servers, knownChannels)
  {
  }

  /** An authorised POST whose message is absent or blank is answered 400. */
  lemma BlankMessageRejected(req: YellRequest, configuredApiKey: Result<string>,
                             servers: seq<ServerConfig>, knownChannels: set<ChannelId>)
    requires EqualsIgnoreCase("POST", req.httpMethod) && Authorized(req, configuredApiKey, servers)
    requires req.body.JsonBody? && StringField(req.body.fields, "message").Ok?
    requires StringField(req.body.fields, "playerName").Ok? && StringField(req.body.fields, "serverName").Ok?
    requires !IsPresent(StringField(req.body.fields, "message").value)
    ensures HandleRequest(req, configuredApiKey, servers, knownChannels) == Rejected(MessageRequired)
    ensures Status(HandleRequest(req, configuredApiKey, servers, knownChannels)) == 400
  {
    var apiKey := req.authorization.value[|BEARER|..];
    assert FindServerByApiKey(configuredApiKey, servers, apiKey) == Ok(Some(servers[0]));
  }

  /** A readable body is not enough: a malformed body or a message field
      that cannot be read as a string ends in the catch-all 500, not 400. */
  lemma UnreadableBodyIsInternalError(req: YellRequest, configuredApiKey: Result<string>,
                                      servers: seq<ServerConfig>, knownChannels: set<ChannelId>)
    requires EqualsIgnoreCase("POST", req.httpMethod) && Authorized(req, configuredApiKey, servers)
    requires req.body.Unparsable? || StringField(req.body.fields, "message").Err?
    ensures HandleRequest(req, configuredApiKey, servers, knownChannels) == Rejected(InternalError)
  {
    var apiKey := req.authorization.value[|BEARER|..];
    assert FindServerByApiKey(configuredApiKey, servers, apiKey) == Ok(Some(servers[0]));
  }

  /** An authorised POST with a readable, non-blank message that names a
      server no configured server matches is answered 400. */
  lemma UnknownServerIs400(req: YellRequest, configuredApiKey: Result<string>,
                           servers: seq<ServerConfig>, knownChannels: set<ChannelId>)
    requires EqualsIgnoreCase("POST", req.httpMethod) && Authorized(req, configuredApiKey, servers)
    requires req.body.JsonBody? && StringField(req.body.fields, "message").Ok?
    requires StringField(req.body.fields, "playerName").Ok? && StringField(req.body.fields, "serverName").Ok?
    requires IsPresent(StringField(req.body.fields, "message").value)
    requires IsPresent(StringField(req.body.fields, "serverName").value)
    requires ServerByName(servers, StringField(req.body.fields, "serverName").value.value).None?
    ensures HandleRequest(req, configuredApiKey, servers, knownChannels)
         == Rejected(ServerNotFound(StringField(req.body.fields, "serverName").value.value))
    ensures Status(HandleRequest(req, configuredApiKey, servers, knownChannels)) == 400
  {
    var apiKey := req.authorization.value[|BEARER|..];
    assert FindServerByApiKey(configuredApiKey, servers, apiKey) == Ok(Some(servers[0]));
  }

  /** The addressed server resolves but the bot cannot see its channel:
      answered 500. */
  lemma UnknownChannelIs500(req: YellRequest, configuredApiKey: Result<string>,
                            servers: seq<ServerConfig>, knownChannels: set<ChannelId>)
    requires EqualsIgnoreCase("POST", req.httpMethod) && Authorized(req, configuredApiKey, servers)
    requires req.body.JsonBody? && StringField(req.body.fields, "message").Ok?
    requires StringField(req.body.fields, "playerName").Ok? && StringField(req.body.fields, "serverName").Ok?
    requires IsPresent(StringField(req.body.fields, "message").value)
    requires Addressed(req.body.fields, servers).Some?
    requires Addressed(req.body.fields, servers).value.channelId.Some?
    requires Addressed(req.body.fields, servers).value.channelId.value !in knownChannels
    ensures HandleRequest(req, configuredApiKey, servers, knownChannels)
         == Rejected(ChannelNotFound(Addressed(req.body.fields, servers).value.name))
    ensures Status(HandleRequest(req, configuredApiKey, servers, knownChannels)) == 500
  {
    var apiKey := req.authorization.value[|BEARER|..];
    assert FindServerByApiKey(configuredApiKey, servers, apiKey) == Ok(Some(servers[0]));
  }

  // -----------------------------------------------------------------------
  // The server object, composed with the outbound queue
  // -----------------------------------------------------------------------

  class YellServer {
    const servers: seq<ServerConfig>
    const configuredApiKey: Result<string>
    const knownChannels: set<ChannelId>
    const messageQueue: YellMessageQueue

    /** The server builds a queue of its own: empty, not running and shared
        with no one. */
    constructor (servers: seq<ServerConfig>, configuredApiKey: Result<string>,
                 knownChannels: set<ChannelId>)
      ensures this.servers == servers && this.configuredApiKey == configuredApiKey
      ensures this.knownChannels == knownChannels
      ensures fresh(messageQueue)
      ensures messageQueue.messageQueue == [] && !messageQueue.running && messageQueue.rateLimitUntil == 0
      ensures messageQueue.processorThreadsStarted == 0
    {
      this.servers := servers;
      this.configuredApiKey := configuredApiKey;
      this.knownChannels := knownChannels;
      this.messageQueue := new YellMessageQueue();
    }

    /** `findServerByName`: the same first case-insensitive match as
        `ServerConfig.getServerByName`, over this server's list. */
    method FindServerByName(name: string) returns (r: Option<ServerConfig>)
      ensures r == ServerByName(servers, name)
    {
      r := GetServerByName(servers, name);
    }

    /** Handles one request: the reply, and exactly one enqueued message
        when and only when the reply is 200. */
    method Handle(req: YellRequest) returns (reply: Reply)
      modifies messageQueue`messageQueue
      ensures reply == HandleRequest(req, configuredApiKey, servers, knownChannels)
      ensures messageQueue.messageQueue ==
        if reply.Queued? then Offer(old(messageQueue.messageQueue), QueuedMessage(reply.channel, reply.text))
        else old(messageQueue.messageQueue)
    {
      reply := HandleRequest(req, configuredApiKey, servers, knownChannels);
      if reply.Queued? {
        messageQueue.QueueMessage(reply.channel, reply.text);
      }
    }
  }
}
