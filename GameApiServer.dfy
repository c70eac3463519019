/** The game API server: a table of endpoint handlers, and the wrapper that
    every handler runs behind. The wrapper checks the HTTP method, then the
    Bearer header, then the key, and only then parses the body and calls
    the handler, mapping its result and its exceptions to status codes.

    Serving HTTP is I/O: an exchange is reduced to its method, its
    Authorization header and its body as json-simple parsed it, and the
    reply to its status and the response envelope. */
module GameApi {
  import opened Common
  import opened Json
  import opened ApiRequests
  import opened ApiResponses
  import opened ApiConfiguration
  import GameClient

  /** What a game handler's `handle` does with a request. */
  datatype HandlerOutcome = Returned(response: ApiResponse) | Raised(exception: Thrown)

  /** A `GameApiHandler`: the method it serves and its behaviour. */
  datatype Handler = Handler(httpMethod: string, handle: ApiRequest -> HandlerOutcome)

  /** The request text as json-simple's parser sees it. */
  datatype RawBody = Malformed | Document(value: JsonValue)

  datatype Exchange = Exchange(requestMethod: string, authorization: Option<string>, body: RawBody)

  datatype Reply = Reply(status: int, response: ApiResponse)

  const AUTHENTICATED_AS: string := "DiscordBot"

  /** `ApiRequest.parse`: a parse failure is a ParseException (None here);
      a document that is neither an object nor null fails the cast. */
  function ParseRequest(body: RawBody): (r: Option<Got<ApiRequest>>)
    ensures r.None? <==> body.Malformed?
    ensures r.Some? && r.value.Got? ==>
      (r.value.value.Some? && r.value.value.value.authenticatedUsername == AUTHENTICATED_AS)
    ensures r.Some? ==> (r.value.Got? <==> body.value.JObject? || body.value.JNull?)
  {
    match body
    case Malformed => None
    case Document(JObject(fields)) => Some(Got(Some(ApiRequest(Some(fields), AUTHENTICATED_AS))))
    case Document(JNull) => Some(Got(Some(ApiRequest(None, AUTHENTICATED_AS))))
    case Document(_) => Some(Threw(OtherException(CLASS_CAST)))
  }

  /** The reply for an exception, by the three catch clauses. */
  function Caught(e: Thrown): (r: Reply)
    ensures r.status == (if e.IllegalArgument? then 400 else 500) && !r.response.success
    ensures r.response.data.None?
  {
    match e
    case IllegalArgument(m) => Reply(400, Error("Bad request: " + m))
    case OtherException(m) => Reply(500, Error("Internal server error: " + m))
  }

  /** The three checks that guard every handler. */
  predicate MethodMatches(handler: Handler, ex: Exchange) {
    EqualsIgnoreCase(ex.requestMethod, handler.httpMethod)
  }

  predicate HasBearer(ex: Exchange) {
    ex.authorization.Some? && StartsWith(ex.authorization.value, BEARER)
  }

  predicate KeyMatches(config: ApiConfig, ex: Exchange)
    requires HasBearer(ex)
  {
    ex.authorization.value[|BEARER|..] == config.apiKey
  }

  predicate Authenticated(config: ApiConfig, handler: Handler, ex: Exchange) {
    MethodMatches(handler, ex) && HasBearer(ex) && KeyMatches(config, ex)
  }

  /** The handler `createAuthenticatedHandler` wraps around a game handler. */
  function AuthenticatedHandle(config: ApiConfig, handler: Handler, ex: Exchange): (r: Reply)
    ensures r.status == 200 ==> Authenticated(config, handler, ex) && r.response.success
    ensures !Authenticated(config, handler, ex) ==> !r.response.success
  {
    if !EqualsIgnoreCase(ex.requestMethod, handler.httpMethod) then
      Reply(405, Error("Method not allowed. Use " + handler.httpMethod + "."))
    else if ex.authorization.None? || !StartsWith(ex.authorization.value, BEARER) then
      Reply(401, Error("Unauthorized: Missing or invalid Authorization header"))
    else if ex.authorization.value[|BEARER|..] != config.apiKey then
      Reply(401, Error("Unauthorized: Invalid API key"))
    else
      match ParseRequest(ex.body)
      case None => Reply(400, Error("Invalid JSON in request body"))
      case Some(Threw(e)) => Caught(e)
      case Some(Got(request)) =>
        match handler.handle(request.value)
        case Returned(response) => Reply(if response.success then 200 else 400, response)
        case Raised(e) => Caught(e)
  }

  // -----------------------------------------------------------------------
  // Properties of the wrapper
  // -----------------------------------------------------------------------

  /** The method is checked first: a mismatch is 405 whatever the header. */
  lemma MethodCheckedFirst(config: ApiConfig, handler: Handler, ex: Exchange)
    requires !MethodMatches(handler, ex)
    ensures AuthenticatedHandle(config, handler, ex).status == 405
  {
  }

  /** Then the header, then the key: both failures are 401, and neither
      depends on the body. */
  lemma UnauthenticatedIs401(config: ApiConfig, handler: Handler, ex: Exchange, body: RawBody)
    requires MethodMatches(handler, ex) && !(HasBearer(ex) && KeyMatches(config, ex))
    ensures AuthenticatedHandle(config, handler, ex).status == 401
    ensures AuthenticatedHandle(config, handler, ex) == AuthenticatedHandle(config, handler, ex.(body := body))
  {
  }

  /** The handler is consulted only after all three checks pass: before
      that, the reply is the same for any handler serving the same method. */
  lemma HandlerGuarded(config: ApiConfig, handler: Handler, ex: Exchange, other: ApiRequest -> HandlerOutcome)
    requires !Authenticated(config, handler, ex)
    ensures AuthenticatedHandle(config, handler, ex) == AuthenticatedHandle(config, handler.(handle := other), ex)
    ensures AuthenticatedHandle(config, handler, ex).status in {401, 405}
  {
  }

  /** Past the checks, a request object reaches the handler, and the reply
      is 200 exactly when the handler's response is a success. */
  lemma HandlerStatus(config: ApiConfig, handler: Handler, ex: Exchange, fields: JsonObject)
    requires Authenticated(config, handler, ex) && ex.body == Document(JObject(fields))
    requires handler.handle(ApiRequest(Some(fields), AUTHENTICATED_AS)).Returned?
    ensures var response := handler.handle(ApiRequest(Some(fields), AUTHENTICATED_AS)).response;
      AuthenticatedHandle(config, handler, ex) == Reply(if response.success then 200 else 400, response)
  {
  }

  /** Exceptions: unparsable JSON and illegal arguments are the client's
      fault (400); anything else is the server's (500). */
  lemma ExceptionStatus(config: ApiConfig, handler: Handler, ex: Exchange)
    requires Authenticated(config, handler, ex)
    ensures ex.body.Malformed? ==> AuthenticatedHandle(config, handler, ex).status == 400
    ensures ex.body.Document? && !ex.body.value.JObject? && !ex.body.value.JNull? ==>
      AuthenticatedHandle(config, handler, ex).status == 500
    ensures ex.body.Document? && ex.body.value.JObject? ==>
      var outcome := handler.handle(ApiRequest(Some(ex.body.value.fields), AUTHENTICATED_AS));
      outcome.Raised? ==>
        AuthenticatedHandle(config, handler, ex).status == (if outcome.exception.IllegalArgument? then 400 else 500)
  {
  }

  /** Every reply has one of the five statuses, and only a successful
      response is 200. */
  lemma StatusesUsed(config: ApiConfig, handler: Handler, ex: Exchange)
    ensures var r := AuthenticatedHandle(config, handler, ex);
      r.status in {200, 400, 401, 405, 500} && (r.status == 200 <==> r.response.success)
  {
  }

  // -----------------------------------------------------------------------
  // The bot's client against this server
  // -----------------------------------------------------------------------

  /** A request from the bot's client, configured with the server's key,
      always gets past authentication of a POST endpoint. */
  lemma ClientRequestAuthenticated(config: ApiConfig, handler: Handler, c: GameClient.GameServerClient,
                                   endpoint: string, payload: JsonObject)
    requires c.apiKey == config.apiKey && EqualsIgnoreCase("POST", handler.httpMethod)
    ensures var req := GameClient.Post(c, endpoint, payload);
      Authenticated(config, handler, Exchange("POST", Some(req.authorization), Document(JObject(req.payload))))
  {
  }

  /** The bot reads this server's replies as intended: a 2xx reply yields
      its data object, and a rejected one the rejection's message. */
  lemma ClientReadsReply(r: Reply, body: string)
    requires !IsBlank(body)
    ensures var seen := GameClient.SendPostRequestWithResponse(
              GameClient.Response(r.status, body, GameClient.Object(ToJson(r.response))));
      (200 <= r.status < 300 ==> seen == Ok(if r.response.data.Some? then r.response.data.value else map[]))
      && (!(200 <= r.status < 300) && r.response.message != "" ==> seen == Err(r.response.message))
  {
  }

  // -----------------------------------------------------------------------
  // The endpoint table
  // -----------------------------------------------------------------------

  class GameApiServer {
    const config: ApiConfig
    var endpoints: map<string, Handler>

    constructor (config: ApiConfig)
      ensures this.config == config && endpoints == map[]
    {
      this.config := config;
      endpoints := map[];
    }

    /** `registerEndpoint`: the path now maps to the handler, replacing any
        earlier one, and every other path keeps its handler. */
    method RegisterEndpoint(path: string, handler: Handler)
      modifies this`endpoints
      ensures endpoints == old(endpoints)[path := handler]
      ensures path in endpoints && endpoints[path] == handler
      ensures forall p | p in old(endpoints) && p != path :: p in endpoints && endpoints[p] == old(endpoints)[p]
    {
      endpoints := endpoints[path := handler];
    }

    /** An exchange arriving at a registered path gets the wrapped handler's
        reply; None when nothing is registered there. */
    function Serve(path: string, ex: Exchange): (r: Option<Reply>)
      reads this
      ensures r.Some? <==> path in endpoints
      ensures r.Some? ==> r.value == AuthenticatedHandle(config, endpoints[path], ex)
    {
      if path in endpoints then Some(AuthenticatedHandle(config, endpoints[path], ex)) else None
    }
  }
}
