/** The channel-id → server map that routes slash commands to a game server.
    In the source the map is a static field; here it is the one field of a
    `ChannelMapper` object, which `Initialize` rebuilds from a server list. */
module Channels {
  import opened Common
  import opened ServerConfigs

  /** The placeholder left in an unedited configuration file. */
  const PLACEHOLDER_CHANNEL_ID: string := "YOUR_DISCORD_CHANNEL_ID"

  /** The key `initialize` puts a server under: its channel id, unless that
      id is null, empty (not trimmed) or the placeholder. */
  function MapperKey(s: ServerConfig): (k: Option<string>)
    ensures k.Some? <==> s.channelId.Some? && s.channelId.value != "" && s.channelId.value != PLACEHOLDER_CHANNEL_ID
    ensures k.Some? ==> k == s.channelId
  {
    if s.channelId.Some? && s.channelId.value != "" && s.channelId.value != PLACEHOLDER_CHANNEL_ID
    then s.channelId else None
  }

  class ChannelMapper {
    var channelToServerMap: map<string, ServerConfig>

    constructor ()
      ensures channelToServerMap == map[]
    {
      channelToServerMap := map[];
    }

    /** Clears the map, then puts every server with a usable channel id under
        that id, in list order. */
    method Initialize(servers: seq<ServerConfig>)
      modifies this
      ensures channelToServerMap == LastByKey(servers, MapperKey)
    {
      channelToServerMap := map[];
      for i := 0 to |servers|
        invariant channelToServerMap == LastByKey(servers[..i], MapperKey)
      {
        assert servers[..i + 1][..i] == servers[..i];
        var id := servers[i].channelId;
        if id.Some? && id.value != "" && id.value != PLACEHOLDER_CHANNEL_ID {
          channelToServerMap := channelToServerMap[id.value := servers[i]];
        }
      }
      assert servers[..|servers|] == servers;
    }

    /** `getServerForChannel`: the mapped server, or null. */
    function GetServerForChannel(channelId: string): (r: Option<ServerConfig>)
      reads this
      ensures r.Some? <==> channelId in channelToServerMap
      ensures r.Some? ==> r.value == channelToServerMap[channelId]
    {
      if channelId in channelToServerMap then Some(channelToServerMap[channelId]) else None
    }

    /** `isChannelMapped` agrees with `getServerForChannel` on every id. */
    function IsChannelMapped(channelId: string): (b: bool)
      reads this
      ensures b <==> GetServerForChannel(channelId).Some?
    {
      channelId in channelToServerMap
    }

    /** `getMappedChannels`: exactly the ids for which a server is mapped. */
    function GetMappedChannels(): (ids: set<string>)
      reads this
      ensures forall c :: c in ids <==> IsChannelMapped(c)
    {
      channelToServerMap.Keys
    }
  }

  /** The map `Initialize` builds, described by the list alone: an id is a
      key iff some server carries it as a usable channel id, and it maps to
      the last such server. Nothing from before the call survives. */
  lemma InitializedMap(servers: seq<ServerConfig>, c: string)
    ensures c in LastByKey(servers, MapperKey) <==>
      c != "" && c != PLACEHOLDER_CHANNEL_ID && exists i | 0 <= i < |servers| :: servers[i].channelId == Some(c)
    ensures c in LastByKey(servers, MapperKey) ==>
      exists i | 0 <= i < |servers| ::
        (LastByKey(servers, MapperKey)[c] == servers[i] && servers[i].channelId == Some(c)
         && forall j | i < j < |servers| :: servers[j].channelId != Some(c))
  {
    LastByKeySpec(servers, MapperKey, c);
    if c in LastByKey(servers, MapperKey) {
      var i :| KeyedAt(servers, MapperKey, c, i) && LastByKey(servers, MapperKey)[c] == servers[i]
               && forall j :: i < j < |servers| ==> !KeyedAt(servers, MapperKey, c, j);
      forall j | i < j < |servers| ensures servers[j].channelId != Some(c) {
        assert !KeyedAt(servers, MapperKey, c, j);
      }
    } else if c != "" && c != PLACEHOLDER_CHANNEL_ID {
      forall i | 0 <= i < |servers| ensures servers[i].channelId != Some(c) {
        assert !KeyedAt(servers, MapperKey, c, i);
      }
    }
  }

  /** Servers with an empty or placeholder channel id are never reachable. */
  lemma UnusableIdsNeverMapped(servers: seq<ServerConfig>)
    ensures "" !in LastByKey(servers, MapperKey)
    ensures PLACEHOLDER_CHANNEL_ID !in LastByKey(servers, MapperKey)
  {
    InitializedMap(servers, "");
    InitializedMap(servers, PLACEHOLDER_CHANNEL_ID);
  }
}
