/** The Discord-to-game direction of the yell relay: messages typed in a
    server's yell channel are forwarded to that game server, cut to the
    in-game length limit. */
module YellListener {
  import opened Common
  import opened Json
  import opened ServerConfigs
  import opened GameClient

  /** The in-game limit on a yell's length. */
  const MAX_MESSAGE_LENGTH: nat := 300

  /** The key the constructor files a server under: its yell channel id,
      unless that is null or empty (not trimmed). */
  function YellKey(s: ServerConfig): (k: Option<string>)
    ensures k.Some? <==> s.yellChannelId.Some? && s.yellChannelId.value != ""
    ensures k.Some? ==> k == s.yellChannelId
  {
    if s.yellChannelId.Some? && s.yellChannelId.value != "" then s.yellChannelId else None
  }

  /** The client map the constructor builds: one client per usable yell
      channel, for the last server naming that channel, pointed at that
      server's URL as it is at construction time. */
  function ClientsFor(servers: seq<ServerConfig>, apiKey: string): map<string, GameServerClient>
    reads set i | 0 <= i < |servers| :: servers[i]
  {
    if |servers| == 0 then map[]
    else
      var init := servers[..|servers| - 1];
      var last := servers[|servers| - 1];
      assert forall i | 0 <= i < |init| :: init[i] == servers[i];
      var m := ClientsFor(init, apiKey);
      var k := YellKey(last);
      if k.Some? then m[k.value := NewClient(last.GetUrl(), apiKey)] else m
  }

  /** The clients sit exactly at the keys of the server map the loop would
      build, each for the server that map holds. */
  lemma {:induction false} ClientsForOwners(servers: seq<ServerConfig>, apiKey: string)
    ensures ClientsFor(servers, apiKey).Keys == LastByKey(servers, YellKey).Keys
    ensures forall c | c in ClientsFor(servers, apiKey) ::
      c in LastByKey(servers, YellKey)
      && ClientsFor(servers, apiKey)[c] == NewClient(LastByKey(servers, YellKey)[c].GetUrl(), apiKey)
  {
    if |servers| > 0 {
      ClientsForOwners(servers[..|servers| - 1], apiKey);
    }
  }

  /** A message as `onMessageReceived` sees it. `memberName` is the
      member's effective name (null outside a guild); `content` is
      `getContentDisplay()`. */
  datatype IncomingMessage = IncomingMessage(
    authorIsBot: bool,
    channelId: string,
    memberName: Option<string>,
    authorName: string,
    content: Option<string>)

  /** What gets passed to `sendDiscordYell`. */
  datatype Forward = Forward(client: GameServerClient, discordUsername: string, message: string)

  /** `substring(0, 300)` when longer than the limit. */
  function Truncate(s: string): (r: string)
    ensures |r| <= MAX_MESSAGE_LENGTH && r <= s
    ensures |s| <= MAX_MESSAGE_LENGTH ==> r == s
    ensures |s| > MAX_MESSAGE_LENGTH ==> |r| == MAX_MESSAGE_LENGTH
  {
    if |s| > MAX_MESSAGE_LENGTH then s[..MAX_MESSAGE_LENGTH] else s
  }

  class YellChannelListener {
    const serverClients: map<string, GameServerClient>

    /** The constructor once `botConfig.getApiKey()` has succeeded (see
        `NewListener` for the failing case). */
    constructor (servers: seq<ServerConfig>, apiKey: string)
      ensures serverClients == ClientsFor(servers, apiKey)
    {
      var clients := map[];
      for i := 0 to |servers|
        invariant clients == ClientsFor(servers[..i], apiKey)
      {
        assert servers[..i + 1][..i] == servers[..i];
        var server := servers[i];
        if server.yellChannelId.Some? && server.yellChannelId.value != "" {
          clients := clients[server.yellChannelId.value := NewClient(server.GetUrl(), apiKey)];
        }
      }
      assert servers[..|servers|] == servers;
      serverClients := clients;
    }

    /** `onMessageReceived` up to the call of `sendDiscordYell`: None when
        the message is dropped. */
    function OnMessageReceived(msg: IncomingMessage): (r: Option<Forward>)
      reads this
      ensures r.Some? <==>
        !msg.authorIsBot && msg.channelId in serverClients && msg.content.Some? && !IsBlank(msg.content.value)
      ensures r.Some? ==> r.value.client == serverClients[msg.channelId]
      ensures r.Some? ==>
        (r.value.discordUsername == if msg.memberName.Some? then msg.memberName.value else msg.authorName)
      ensures r.Some? ==> |r.value.message| <= MAX_MESSAGE_LENGTH && r.value.message <= msg.content.value
      ensures r.Some? && |msg.content.value| <= MAX_MESSAGE_LENGTH ==> r.value.message == msg.content.value
      ensures r.Some? && |msg.content.value| > MAX_MESSAGE_LENGTH ==>
        r.value.message == msg.content.value[..MAX_MESSAGE_LENGTH]
    {
      if msg.authorIsBot then None
      else if msg.channelId !in serverClients then None
      else
        var client := serverClients[msg.channelId];
        var discordUsername := if msg.memberName.Some? then msg.memberName.value else msg.authorName;
        if msg.content.None? || IsBlank(msg.content.value) then None
        else Some(Forward(client, discordUsername, Truncate(msg.content.value)))
    }

    /** The request a forward becomes. */
    function ForwardRequest(f: Forward): (r: ClientRequest)
      ensures r.url == f.client.serverUrl + "/discord-yell"
      ensures r.payload.Keys == {"discordUsername", "message"}
      ensures r.payload["discordUsername"] == JString(f.discordUsername) && r.payload["message"] == JString(f.message)
    {
      SendDiscordYell(f.client, f.discordUsername, f.message)
    }
  }

  /** The channel map holds exactly the usable yell channels, and each
      channel's client talks to the last server that names it. */
  lemma ClientsForSpec(servers: seq<ServerConfig>, apiKey: string, c: string)
    ensures c in ClientsFor(servers, apiKey) <==>
      c != "" && exists i | 0 <= i < |servers| :: servers[i].yellChannelId == Some(c)
    ensures c in ClientsFor(servers, apiKey) ==>
      exists i | 0 <= i < |servers| ::
        (servers[i].yellChannelId == Some(c)
         && ClientsFor(servers, apiKey)[c] == NewClient(servers[i].GetUrl(), apiKey)
         && forall j | i < j < |servers| :: servers[j].yellChannelId != Some(c))
  {
    LastByKeySpec(servers, YellKey, c);
    ClientsForOwners(servers, apiKey);
    var owners := LastByKey(servers, YellKey);
    if c in owners {
      var i :| KeyedAt(servers, YellKey, c, i) && owners[c] == servers[i]
               && forall j :: i < j < |servers| ==> !KeyedAt(servers, YellKey, c, j);
      forall j | i < j < |servers| ensures servers[j].yellChannelId != Some(c) {
        assert !KeyedAt(servers, YellKey, c, j);
      }
    } else if c != "" {
      forall i | 0 <= i < |servers| ensures servers[i].yellChannelId != Some(c) {
        assert !KeyedAt(servers, YellKey, c, i);
      }
    }
  }

  /** Whether building the listener has to ask for the API key at all. */
  predicate NeedsApiKey(servers: seq<ServerConfig>) {
    exists i | 0 <= i < |servers| :: YellKey(servers[i]).Some?
  }

  /** `new YellChannelListener(botConfig, servers)`: the key lookup throws,
      and construction fails, only when some server has a yell channel and
      no API key is configured. */
  method NewListener(servers: seq<ServerConfig>, apiKey: Result<string>) returns (r: Result<YellChannelListener>)
    ensures r.Err? <==> apiKey.Err? && NeedsApiKey(servers)
    ensures r.Err? ==> r.error == apiKey.error
    ensures r.Ok? && apiKey.Ok? ==> r.value.serverClients == ClientsFor(servers, apiKey.value)
    ensures r.Ok? && apiKey.Err? ==> r.value.serverClients == map[]
  {
    if apiKey.Err? && NeedsApiKey(servers) {
      return Err(apiKey.error);
    }
    var key := if apiKey.Ok? then apiKey.value else "";
    var listener := new YellChannelListener(servers, key);
    if apiKey.Err? {
      NoYellChannelsNoClients(servers, key);
    }
    return Ok(listener);
  }

  lemma NoYellChannelsNoClients(servers: seq<ServerConfig>, apiKey: string)
    requires !NeedsApiKey(servers)
    ensures ClientsFor(servers, apiKey) == map[]
  {
    forall c | c in ClientsFor(servers, apiKey) ensures false {
      ClientsForSpec(servers, apiKey, c);
    }
  }
}
