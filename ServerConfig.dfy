/** A game server's configuration entry and the lookups over the loaded
    server list. Only `testingMode` ever changes after construction, so it is
    the one mutable field; the XML loading that produces the list is not part
    of this model, and the lookups take the list as a parameter. */
module ServerConfigs {
  import opened Common

  class ServerConfig {
    const name: string
    const host: string
    const port: int
    const channelId: Option<string>       // Discord channel for commands
    const yellChannelId: Option<string>   // Discord channel for yell messages
    var testingMode: bool                 // use localhost instead of `host`

    /** The four-argument constructor: no yell channel. */
    constructor (name: string, host: string, port: int, channelId: Option<string>)
      ensures this.name == name && this.host == host && this.port == port
      ensures this.channelId == channelId && this.yellChannelId == None
      ensures !testingMode
    {
      this.name := name;
      this.host := host;
      this.port := port;
      this.channelId := channelId;
      this.yellChannelId := None;
      this.testingMode := false;
    }

    /** The five-argument constructor. */
    constructor WithYellChannel(name: string, host: string, port: int,
                                channelId: Option<string>, yellChannelId: Option<string>)
      ensures this.name == name && this.host == host && this.port == port
      ensures this.channelId == channelId && this.yellChannelId == yellChannelId
      ensures !testingMode
    {
      this.name := name;
      this.host := host;
      this.port := port;
      this.channelId := channelId;
      this.yellChannelId := yellChannelId;
      this.testingMode := false;
    }

    /** Only the testing flag changes; the other fields are constants. */
    method SetTestingMode(testingMode: bool)
      modifies this`testingMode
      ensures this.testingMode == testingMode
    {
      this.testingMode := testingMode;
    }

    /** Testing mode overrides every host with "localhost". */
    function GetHost(): (h: string)
      reads this
      ensures testingMode ==> h == "localhost"
      ensures !testingMode ==> h == host
    {
      if testingMode then "localhost" else host
    }

    /** The base URL of the server's HTTP API, built from the effective host. */
    function GetUrl(): string
      reads this
    {
      "http://" + GetHost() + ":" + IntToString(port)
    }
  }

  /** In testing mode the configured host does not reach the URL at all. */
  lemma TestingModeUrl(s: ServerConfig)
    requires s.testingMode
    ensures s.GetUrl() == "http://localhost:" + IntToString(s.port)
  {
  }

  /** Two servers on the same effective host but different ports never share
      a URL, so port is recoverable from the URL. */
  lemma UrlSeparatesPorts(a: ServerConfig, b: ServerConfig)
    requires a.GetHost() == b.GetHost() && IsInt32(a.port) && IsInt32(b.port)
    requires a.port != b.port
    ensures a.GetUrl() != b.GetUrl()
  {
    var prefix := "http://" + a.GetHost() + ":";
    assert a.GetUrl() == prefix + IntToString(a.port);
    assert b.GetUrl() == prefix + IntToString(b.port);
    IntToStringInjective(a.port, b.port);
    assert (prefix + IntToString(a.port))[|prefix|..] == IntToString(a.port);
    assert (prefix + IntToString(b.port))[|prefix|..] == IntToString(b.port);
  }

  // -----------------------------------------------------------------------
  // Lookups over a server list
  // -----------------------------------------------------------------------

  predicate NameMatches(s: ServerConfig, name: string) {
    EqualsIgnoreCase(s.name, name)
  }

  /** `channelId.equals(server.getChannelId())`: a server without a channel
      id never matches. */
  predicate ChannelMatches(s: ServerConfig, channelId: string) {
    s.channelId == Some(channelId)
  }

  predicate YellChannelMatches(s: ServerConfig, yellChannelId: string) {
    s.yellChannelId == Some(yellChannelId)
  }

  /** The first element of `servers` whose index FirstWhere found. */
  function At(servers: seq<ServerConfig>, k: Option<nat>): Option<ServerConfig>
    requires k.Some? ==> k.value < |servers|
  {
    if k.Some? then Some(servers[k.value]) else None
  }

  /** The first server whose name equals `name` ignoring case. */
  function ServerByName(servers: seq<ServerConfig>, name: string): (r: Option<ServerConfig>)
    ensures r.Some? <==> exists i | 0 <= i < |servers| :: NameMatches(servers[i], name)
    ensures r.Some? ==> exists i | 0 <= i < |servers| ::
      (servers[i] == r.value && NameMatches(servers[i], name)
       && forall j | 0 <= j < i :: !NameMatches(servers[j], name))
  {
    At(servers, FirstWhere(servers, (s: ServerConfig) => NameMatches(s, name)))
  }

  /** The first server whose command channel id is exactly `channelId`. */
  function ServerByChannelId(servers: seq<ServerConfig>, channelId: string): (r: Option<ServerConfig>)
    ensures r.Some? <==> exists i | 0 <= i < |servers| :: ChannelMatches(servers[i], channelId)
    ensures r.Some? ==> exists i | 0 <= i < |servers| ::
      (servers[i] == r.value && ChannelMatches(servers[i], channelId)
       && forall j | 0 <= j < i :: !ChannelMatches(servers[j], channelId))
  {
    At(servers, FirstWhere(servers, (s: ServerConfig) => ChannelMatches(s, channelId)))
  }

  /** The first server whose yell channel id is exactly `yellChannelId`. */
  function ServerByYellChannelId(servers: seq<ServerConfig>, yellChannelId: string): (r: Option<ServerConfig>)
    ensures r.Some? <==> exists i | 0 <= i < |servers| :: YellChannelMatches(servers[i], yellChannelId)
    ensures r.Some? ==> exists i | 0 <= i < |servers| ::
      (servers[i] == r.value && YellChannelMatches(servers[i], yellChannelId)
       && forall j | 0 <= j < i :: !YellChannelMatches(servers[j], yellChannelId))
  {
    At(servers, FirstWhere(servers, (s: ServerConfig) => YellChannelMatches(s, yellChannelId)))
  }

  /** getServerByName's for-loop with early return. */
  method GetServerByName(servers: seq<ServerConfig>, name: string) returns (r: Option<ServerConfig>)
    ensures r == ServerByName(servers, name)
  {
    for i := 0 to |servers|
      invariant forall j | 0 <= j < i :: !NameMatches(servers[j], name)
    {
      if NameMatches(servers[i], name) {
        return Some(servers[i]);
      }
    }
    return None;
  }

  /** getServerByChannelId's for-loop with early return. */
  method GetServerByChannelId(servers: seq<ServerConfig>, channelId: string) returns (r: Option<ServerConfig>)
    ensures r == ServerByChannelId(servers, channelId)
  {
    for i := 0 to |servers|
      invariant forall j | 0 <= j < i :: !ChannelMatches(servers[j], channelId)
    {
      if ChannelMatches(servers[i], channelId) {
        return Some(servers[i]);
      }
    }
    return None;
  }

  /** getServerByYellChannelId's for-loop with early return. */
  method GetServerByYellChannelId(servers: seq<ServerConfig>, yellChannelId: string) returns (r: Option<ServerConfig>)
    ensures r == ServerByYellChannelId(servers, yellChannelId)
  {
    for i := 0 to |servers|
      invariant forall j | 0 <= j < i :: !YellChannelMatches(servers[j], yellChannelId)
    {
      if YellChannelMatches(servers[i], yellChannelId) {
        return Some(servers[i]);
      }
    }
    return None;
  }
}
