/** The bot's configuration getters. Loading `bot.properties` is I/O and not
    part of this model: the getters are functions of the loaded property
    table and of the process environment. Every getter tries the property
    first and falls through to the environment variable when the property is
    missing or blank. */
module BotConfiguration {
  import opened Common

  datatype Environment = Environment(properties: map<string, string>, env: map<string, string>)

  function Lookup(table: map<string, string>, key: string): (r: Option<string>)
    ensures r.Some? <==> key in table
    ensures r.Some? ==> r.value == table[key]
  {
    if key in table then Some(table[key]) else None
  }

  /** The fallback every getter shares: a present, non-blank property wins;
      otherwise the environment variable, which may itself be absent or blank. */
  function PropertyThenEnv(e: Environment, property: string, variable: string): (r: Option<string>)
    ensures IsPresent(Lookup(e.properties, property)) ==> r == Lookup(e.properties, property)
    ensures !IsPresent(Lookup(e.properties, property)) ==> r == Lookup(e.env, variable)
  {
    var p := Lookup(e.properties, property);
    if IsPresent(p) then p else Lookup(e.env, variable)
  }

  const BOT_TOKEN_MISSING: string :=
    "Discord bot token not configured. Set discord.bot.token in bot.properties or DISCORD_BOT_TOKEN environment variable"
  const API_KEY_MISSING: string :=
    "API key not configured. Set api.key in bot.properties or RSPS_API_KEY environment variable"
  const DEFAULT_COMMAND_PREFIX: string := "!"
  const DEFAULT_YELL_SERVER_PORT: int := 8091

  /** A required setting: the first non-blank source, or the exception. */
  function Required(e: Environment, property: string, variable: string, missing: string): (r: Result<string>)
    ensures r.Ok? <==> IsPresent(PropertyThenEnv(e, property, variable))
    ensures r.Ok? ==> r.value == PropertyThenEnv(e, property, variable).value && !IsBlank(r.value)
    ensures r.Err? ==> r.error == missing
  {
    var v := PropertyThenEnv(e, property, variable);
    if IsPresent(v) then Ok(v.value) else Err(missing)
  }

  function GetBotToken(e: Environment): Result<string> {
    Required(e, "discord.bot.token", "DISCORD_BOT_TOKEN", BOT_TOKEN_MISSING)
  }

  function GetApiKey(e: Environment): Result<string> {
    Required(e, "api.key", "RSPS_API_KEY", API_KEY_MISSING)
  }

  /** The command prefix is never blank: "!" when neither source has one. */
  function GetCommandPrefix(e: Environment): (prefix: string)
    ensures !IsBlank(prefix)
    ensures IsPresent(PropertyThenEnv(e, "command.prefix", "COMMAND_PREFIX")) ==>
      prefix == PropertyThenEnv(e, "command.prefix", "COMMAND_PREFIX").value
    ensures !IsPresent(PropertyThenEnv(e, "command.prefix", "COMMAND_PREFIX")) ==> prefix == DEFAULT_COMMAND_PREFIX
  {
    var v := PropertyThenEnv(e, "command.prefix", "COMMAND_PREFIX");
    if IsPresent(v) then v.value
    else
      assert !IsTrimmable(DEFAULT_COMMAND_PREFIX[0]);
      DEFAULT_COMMAND_PREFIX
  }

  /** Optional role ids have no default and are not validated: null, or
      whatever the environment holds, blank included. */
  function GetAdminRoleId(e: Environment): Option<string> {
    PropertyThenEnv(e, "admin.role.id", "ADMIN_ROLE_ID")
  }

  function GetModeratorRoleId(e: Environment): Option<string> {
    PropertyThenEnv(e, "moderator.role.id", "MODERATOR_ROLE_ID")
  }

  /** The yell port: the trimmed setting parsed as an int, and 8091 when the
      setting is missing, blank or not a number. */
  function GetYellServerPort(e: Environment): (port: int)
    ensures IsInt32(port)
    ensures !IsPresent(PropertyThenEnv(e, "yell.server.port", "YELL_SERVER_PORT")) ==> port == DEFAULT_YELL_SERVER_PORT
    ensures IsPresent(PropertyThenEnv(e, "yell.server.port", "YELL_SERVER_PORT")) ==>
      var parsed := ParseInt(Trim(PropertyThenEnv(e, "yell.server.port", "YELL_SERVER_PORT").value));
      port == if parsed.Some? then parsed.value else DEFAULT_YELL_SERVER_PORT
  {
    var v := PropertyThenEnv(e, "yell.server.port", "YELL_SERVER_PORT");
    if !IsPresent(v) then DEFAULT_YELL_SERVER_PORT
    else
      var parsed := ParseInt(Trim(v.value));
      if parsed.Some? then parsed.value else DEFAULT_YELL_SERVER_PORT
  }

  // -----------------------------------------------------------------------
  // Properties
  // -----------------------------------------------------------------------

  /** A non-blank property wins over anything in the environment. */
  lemma PropertyWins(e: Environment, property: string, variable: string, env: map<string, string>)
    requires IsPresent(Lookup(e.properties, property))
    ensures PropertyThenEnv(e, property, variable) == PropertyThenEnv(e.(env := env), property, variable)
    ensures PropertyThenEnv(e, property, variable) == Some(e.properties[property])
  {
  }

  /** A blank property is as good as none. */
  lemma BlankPropertyFallsThrough(e: Environment, property: string, variable: string)
    requires property in e.properties && IsBlank(e.properties[property])
    ensures PropertyThenEnv(e, property, variable) == PropertyThenEnv(e.(properties := e.properties - {property}), property, variable)
  {
  }

  /** With neither source set, the token and the API key are errors while
      the prefix and the port have their defaults. */
  lemma NothingConfigured()
    ensures var e := Environment(map[], map[]);
      GetBotToken(e) == Err(BOT_TOKEN_MISSING) && GetApiKey(e) == Err(API_KEY_MISSING)
      && GetCommandPrefix(e) == "!" && GetYellServerPort(e) == 8091
      && GetAdminRoleId(e) == None && GetModeratorRoleId(e) == None
  {
  }

  /** The role ids are taken as they are: with no property set, whatever
      the environment holds, blank text included, is the role id. */
  lemma RoleIdsNotValidated(e: Environment)
    requires "admin.role.id" !in e.properties && "ADMIN_ROLE_ID" in e.env
    requires "moderator.role.id" !in e.properties && "MODERATOR_ROLE_ID" in e.env
    ensures GetAdminRoleId(e) == Some(e.env["ADMIN_ROLE_ID"])
    ensures GetModeratorRoleId(e) == Some(e.env["MODERATOR_ROLE_ID"])
  {
  }

  /** A port written out in decimal, with any surrounding whitespace, is
      read back exactly. */
  lemma PortRoundTrip(e: Environment, n: int, before: string, after: string)
    requires IsInt32(n) && IsBlank(before) && IsBlank(after)
    requires Lookup(e.properties, "yell.server.port") == Some(before + IntToString(n) + after)
    ensures GetYellServerPort(e) == n
  {
    var text := before + IntToString(n) + after;
    IntToStringTrimmed(n);
    TrimPadded(before, IntToString(n), after);
    ParseIntToString(n);
    assert !IsBlank(text) by {
      assert text[|before|] == IntToString(n)[0];
    }
    assert PropertyThenEnv(e, "yell.server.port", "YELL_SERVER_PORT") == Some(text);
  }

  /** Trimming removes exactly the blank padding around a trimmed core. */
  lemma TrimPadded(before: string, core: string, after: string)
    requires IsBlank(before) && IsBlank(after)
    requires |core| > 0 && !IsTrimmable(core[0]) && !IsTrimmable(core[|core| - 1])
    ensures Trim(before + core + after) == core
  {
    var s := before + core + after;
    assert s == before + (core + after);
    TrimStartPadded(before, core + after);
    TrimEndPadded(core, after);
    TrimIsEnds(s);
  }

  lemma {:induction false} TrimStartPadded(pad: string, rest: string)
    requires IsBlank(pad) && |rest| > 0 && !IsTrimmable(rest[0])
    ensures TrimStart(pad + rest) == rest
    decreases |pad|
  {
    if |pad| > 0 {
      assert (pad + rest)[1..] == pad[1..] + rest;
      assert (pad + rest)[0] == pad[0];
      TrimStartPadded(pad[1..], rest);
    } else {
      assert pad + rest == rest;
    }
  }

  lemma {:induction false} TrimEndPadded(core: string, pad: string)
    requires IsBlank(pad) && |core| > 0 && !IsTrimmable(core[|core| - 1])
    ensures TrimEnd(core + pad) == core
    decreases |pad|
  {
    if |pad| > 0 {
      var s := core + pad;
      assert s[..|s| - 1] == core + pad[..|pad| - 1];
      assert s[|s| - 1] == pad[|pad| - 1];
      TrimEndPadded(core, pad[..|pad| - 1]);
    } else {
      assert core + pad == core;
    }
  }
}
