/** The /ban command: resolve the channel's server, send the ban with the
    given or default duration in days, and show the duration in days or in
    whole years. */
module BanCommands {
  import opened Common
  import opened Json
  import opened ServerConfigs
  import opened GameClient
  import opened CommandManagement

  /** The duration in days when the option is not given. */
  const DEFAULT_DURATION: int := 7
  const DAYS_PER_YEAR: int := 365

  /** The duration as shown: "1 day"; from a year on, the whole years it
      spans with the remainder dropped; anything else, zero and negative
      durations included, in days. */
  function DurationDisplay(days: int): (s: string)
    ensures days == 1 ==> s == "1 day"
    ensures DAYS_PER_YEAR <= days < 2 * DAYS_PER_YEAR ==> s == "1 year"
    ensures days >= 2 * DAYS_PER_YEAR ==>
      exists years :: years >= 2 && years * DAYS_PER_YEAR <= days < (years + 1) * DAYS_PER_YEAR
                      && s == IntToString(years) + " years"
    ensures days != 1 && days < DAYS_PER_YEAR ==> s == IntToString(days) + " days"
  {
    if days == 1 then "1 day"
    else if days >= DAYS_PER_YEAR then
      var years := days / DAYS_PER_YEAR;
      assert years * DAYS_PER_YEAR <= days < (years + 1) * DAYS_PER_YEAR;
      if years == 1 then "1 year" else IntToString(years) + " years"
    else IntToString(days) + " days"
  }

  /** A ban of `y` whole years plus any part of a year shows as `y` years. */
  lemma YearsRoundDown(years: int, extra: int)
    requires years >= 2 && 0 <= extra < DAYS_PER_YEAR
    ensures DurationDisplay(years * DAYS_PER_YEAR + extra) == IntToString(years) + " years"
  {
    var days := years * DAYS_PER_YEAR + extra;
    assert days / DAYS_PER_YEAR == years;
  }

  datatype BanReply =
    | Escaped(message: string)
    | Error(message: string)
    | Banned(server: string, player: string, duration: string)

  function Duration(durationOption: Option<int>): int {
    if durationOption.Some? then durationOption.value else DEFAULT_DURATION
  }

  /** `execute`: the ban request issued (None: no call) and the reply. */
  function Execute(server: Option<ServerConfig>, username: string, durationOption: Option<int>,
                   apiKey: Result<string>, outcome: Result<JsonObject>): (r: (Option<ClientRequest>, BanReply))
    reads if server.Some? then {server.value} else {}
    ensures server.None? ==> r == (None, Error(NOT_SERVER_CHANNEL))
    ensures r.0.Some? <==> server.Some? && apiKey.Ok?
    ensures server.Some? && apiKey.Err? ==> r.1 == Escaped(apiKey.error)
    ensures r.0.Some? ==>
      r.0.value == BanPlayer(NewClient(server.value.GetUrl(), apiKey.value), username, Duration(durationOption))
    ensures r.0.Some? && outcome.Ok? ==>
      r.1 == Banned(server.value.name, username, DurationDisplay(Duration(durationOption)))
    ensures r.0.Some? && outcome.Err? ==> r.1 == Error("Failed to ban player: " + outcome.error)
  {
    if server.None? then (None, Error(NOT_SERVER_CHANNEL))
    else
      var duration := if durationOption.Some? then durationOption.value else DEFAULT_DURATION;
      if apiKey.Err? then (None, Escaped(apiKey.error))
      else
        var client := NewClient(server.value.GetUrl(), apiKey.value);
        var request := BanPlayer(client, username, duration);
        if outcome.Err? then (Some(request), Error("Failed to ban player: " + outcome.error))
        else (Some(request), Banned(server.value.name, username, DurationDisplay(duration)))
  }

  /** Without a duration option the ban lasts seven days, shown as such. */
  lemma DefaultBan(server: ServerConfig, username: string, apiKey: string, outcome: Result<JsonObject>)
    ensures var r := Execute(Some(server), username, None, Ok(apiKey), outcome);
      r.0.Some? && "duration" in r.0.value.payload && r.0.value.payload["duration"] == JInteger(7)
      && (outcome.Ok? ==> r.1.duration == "7 days")
  {
    assert IntToString(7) == "7";
  }

  /** The edges of the display: zero and negative bans read as days, and
      two years less a day is still one year. */
  lemma DisplayEdges()
    ensures DurationDisplay(0) == "0 days"
    ensures DurationDisplay(-3) == "-3 days"
    ensures DurationDisplay(729) == "1 year"
  {
    assert IntToString(0) == "0";
    assert IntToString(-3) == "-" + "3";
  }
}
