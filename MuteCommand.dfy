/** The /mute command: resolve the channel's server, send the mute with the
    given or default duration, and show the duration in hours and minutes.

    The client call's outcome (the parsed data, or the exception's message)
    is an input; the Discord reply is reduced to its content. */
module MuteCommands {
  import opened Common
  import opened Json
  import opened ServerConfigs
  import opened GameClient
  import opened CommandManagement

  /** The duration in minutes when the option is not given. */
  const DEFAULT_DURATION: int := 60

  /** "h hour(s)", then " and m minute(s)" when `m` is not zero. */
  function HoursText(hours: int, minutes: int): string {
    IntToString(hours) + " hour(s)" + (if minutes > 0 then " and " + IntToString(minutes) + " minute(s)" else "")
  }

  /** The duration as shown: plain minutes below an hour; otherwise whole
      hours and the leftover minutes, which add back up to the duration. */
  function DurationDisplay(duration: int): (s: string)
    ensures duration < 60 ==> s == IntToString(duration) + " minute(s)"
    ensures duration >= 60 ==>
      exists hours, minutes :: hours >= 1 && 0 <= minutes < 60 && hours * 60 + minutes == duration
                               && s == HoursText(hours, minutes)
  {
    if duration >= 60 then
      var hours := duration / 60;
      var remainingMinutes := duration % 60;
      assert hours * 60 + remainingMinutes == duration;
      HoursText(hours, remainingMinutes)
    else IntToString(duration) + " minute(s)"
  }

  /** The split into hours and minutes is unique, so the text above is a
      function of the duration alone. */
  lemma HoursMinutesUnique(h1: int, m1: int, h2: int, m2: int)
    requires 0 <= m1 < 60 && 0 <= m2 < 60 && h1 * 60 + m1 == h2 * 60 + m2
    ensures h1 == h2 && m1 == m2
  {
  }

  /** The reply `execute` sends. `Escaped` is an exception that leaves
      `execute` and is reported by the command manager. */
  datatype MuteReply =
    | Escaped(message: string)
    | Error(message: string)
    | Muted(server: string, player: string, duration: string)

  function Duration(durationOption: Option<int>): int {
    if durationOption.Some? then durationOption.value else DEFAULT_DURATION
  }

  /** `execute`: the mute request issued (None: no call) and the reply.
      `apiKey` is the bot's key lookup, `outcome` what the call returns. */
  function Execute(server: Option<ServerConfig>, username: string, durationOption: Option<int>,
                   apiKey: Result<string>, outcome: Result<JsonObject>): (r: (Option<ClientRequest>, MuteReply))
    reads if server.Some? then {server.value} else {}
    ensures server.None? ==> r == (None, Error(NOT_SERVER_CHANNEL))
    ensures r.0.Some? <==> server.Some? && apiKey.Ok?
    ensures server.Some? && apiKey.Err? ==> r.1 == Escaped(apiKey.error)
    ensures r.0.Some? ==>
      r.0.value == MutePlayer(NewClient(server.value.GetUrl(), apiKey.value), username, Duration(durationOption))
    ensures r.0.Some? && outcome.Ok? ==>
      r.1 == Muted(server.value.name, username, DurationDisplay(Duration(durationOption)))
    ensures r.0.Some? && outcome.Err? ==> r.1 == Error("Failed to mute player: " + outcome.error)
  {
    if server.None? then (None, Error(NOT_SERVER_CHANNEL))
    else
      var duration := if durationOption.Some? then durationOption.value else DEFAULT_DURATION;
      if apiKey.Err? then (None, Escaped(apiKey.error))
      else
        var client := NewClient(server.value.GetUrl(), apiKey.value);
        var request := MutePlayer(client, username, duration);
        if outcome.Err? then (Some(request), Error("Failed to mute player: " + outcome.error))
        else (Some(request), Muted(server.value.name, username, DurationDisplay(duration)))
  }

  /** Without a duration option the mute lasts sixty minutes, shown as one
      hour. */
  lemma DefaultMute(server: ServerConfig, username: string, apiKey: string, outcome: Result<JsonObject>)
    ensures var r := Execute(Some(server), username, None, Ok(apiKey), outcome);
      r.0.Some? && "duration" in r.0.value.payload && r.0.value.payload["duration"] == JInteger(60)
      && (outcome.Ok? ==> r.1.duration == "1 hour(s)")
  {
    assert IntToString(1) == "1";
  }

  /** Ninety minutes are shown as an hour and thirty minutes. */
  lemma NinetyMinutes()
    ensures DurationDisplay(90) == "1 hour(s) and 30 minute(s)"
  {
    assert DurationDisplay(90) == HoursText(1, 30);
    HourAndAHalfText();
  }

  /** An hour and thirty minutes, written out. */
  lemma HourAndAHalfText()
    ensures HoursText(1, 30) == "1 hour(s) and 30 minute(s)"
  {
    assert IntToString(30) == "30" by {
      assert NatToString(30) == NatToString(3) + [DigitChar(0)];
    }
    assert IntToString(1) == "1";
  }

  /** Whole hours are shown without minutes. */
  lemma TwoHours()
    ensures DurationDisplay(120) == "2 hour(s)"
  {
    assert DurationDisplay(120) == HoursText(2, 0);
    assert IntToString(2) == "2";
  }

  /** Below an hour the minutes are shown as they are. */
  lemma FortyFiveMinutes()
    ensures DurationDisplay(45) == "45 minute(s)"
  {
    assert NatToString(45) == NatToString(4) + [DigitChar(5)];
  }
}
