/** The /loginai command: spawn between one and fifty AI players on the
    channel's server and report the counts the server sends back. */
module LoginAiCommands {
  import opened Common
  import opened Json
  import opened ServerConfigs
  import opened GameClient
  import opened CommandManagement

  const MAX_AMOUNT: int := 50
  const NOT_POSITIVE: string := "Amount must be a positive integer."
  const TOO_MANY: string := "Amount cannot exceed 50 AI bots at once."

  datatype LoginAiReply =
    | Escaped(message: string)
    | Error(message: string)
    | Spawned(server: string, requested: int, spawned: int, skipped: int, totalAiBots: int)

  /** `result.get(key) != null ? ((Number) result.get(key)).intValue() : 0`:
      a missing or null count is 0, a number is taken as it is, and any
      other value fails the cast. */
  function Count(result: JsonObject, key: string): (r: Result<int>)
    ensures Get(result, key).None? ==> r == Ok(0)
    ensures r.Ok? && Get(result, key).Some? ==>
      Get(result, key).value == JNumber(r.value) || Get(result, key).value == JInteger(r.value)
    ensures r.Err? <==> Get(result, key).Some? && !Get(result, key).value.JNumber? && !Get(result, key).value.JInteger?
  {
    match Get(result, key)
    case None => Ok(0)
    case Some(JNumber(n)) => Ok(n)
    case Some(JInteger(n)) => Ok(n)
    case Some(_) => Err(CLASS_CAST)
  }

  /** `execute`: the request issued (None: no call) and the reply. The
      channel is checked first, then the amount (non-positive before too
      large), and only then is the client created. */
  function Execute(server: Option<ServerConfig>, amount: int, apiKey: Result<string>,
                   outcome: Result<JsonObject>): (r: (Option<ClientRequest>, LoginAiReply))
    reads if server.Some? then {server.value} else {}
    ensures r.0.Some? <==> server.Some? && 1 <= amount <= MAX_AMOUNT && apiKey.Ok?
    ensures server.None? ==> r.1 == Error(NOT_SERVER_CHANNEL)
    ensures server.Some? && amount <= 0 ==> r.1 == Error(NOT_POSITIVE)
    ensures server.Some? && amount > MAX_AMOUNT ==> r.1 == Error(TOO_MANY)
    ensures server.Some? && 1 <= amount <= MAX_AMOUNT && apiKey.Err? ==> r.1 == Escaped(apiKey.error)
    ensures r.0.Some? ==> r.0.value == LoginAi(NewClient(server.value.GetUrl(), apiKey.value), amount)
    ensures r.1.Spawned? ==>
      (r.0.Some? && outcome.Ok? && r.1.server == server.value.name && r.1.requested == amount
       && Count(outcome.value, "spawned") == Ok(r.1.spawned)
       && Count(outcome.value, "skipped") == Ok(r.1.skipped)
       && Count(outcome.value, "totalAiBots") == Ok(r.1.totalAiBots))
    ensures r.0.Some? && outcome.Err? ==> r.1 == Error("Failed to spawn AI bots: " + outcome.error)
    ensures r.0.Some? && outcome.Ok? ==>
      var spawned, skipped, total :=
        Count(outcome.value, "spawned"), Count(outcome.value, "skipped"), Count(outcome.value, "totalAiBots");
      r.1 == if spawned.Err? then Error("Failed to spawn AI bots: " + spawned.error)
             else if skipped.Err? then Error("Failed to spawn AI bots: " + skipped.error)
             else if total.Err? then Error("Failed to spawn AI bots: " + total.error)
             else Spawned(server.value.name, amount, spawned.value, skipped.value, total.value)
  {
    if server.None? then (None, Error(NOT_SERVER_CHANNEL))
    else if amount <= 0 then (None, Error(NOT_POSITIVE))
    else if amount > MAX_AMOUNT then (None, Error(TOO_MANY))
    else if apiKey.Err? then (None, Escaped(apiKey.error))
    else
      var request := LoginAi(NewClient(server.value.GetUrl(), apiKey.value), amount);
      if outcome.Err? then (Some(request), Error("Failed to spawn AI bots: " + outcome.error))
      else
        var spawned := Count(outcome.value, "spawned");
        var skipped := Count(outcome.value, "skipped");
        var totalAiBots := Count(outcome.value, "totalAiBots");
        if spawned.Err? then (Some(request), Error("Failed to spawn AI bots: " + spawned.error))
        else if skipped.Err? then (Some(request), Error("Failed to spawn AI bots: " + skipped.error))
        else if totalAiBots.Err? then (Some(request), Error("Failed to spawn AI bots: " + totalAiBots.error))
        else (Some(request), Spawned(server.value.name, amount, spawned.value, skipped.value, totalAiBots.value))
  }

  /** An out-of-range amount is refused before the API key is looked up:
      even with no key configured, the reply is the validation error. */
  lemma AmountCheckedBeforeKey(server: ServerConfig, amount: int, apiKey: Result<string>, outcome: Result<JsonObject>)
    requires !(1 <= amount <= MAX_AMOUNT)
    ensures Execute(Some(server), amount, apiKey, outcome) == Execute(Some(server), amount, Err(""), outcome)
    ensures Execute(Some(server), amount, apiKey, outcome).1.Error?
  {
  }

  /** A reply carrying no counts reports zeros for all three. */
  lemma MissingCountsAreZero(server: ServerConfig, amount: int, apiKey: string)
    requires 1 <= amount <= MAX_AMOUNT
    ensures Execute(Some(server), amount, Ok(apiKey), Ok(map[])).1 == Spawned(server.name, amount, 0, 0, 0)
  {
  }

  /** An absent count reads as zero whatever else the data holds, and the
      other two counts are reported as the server sent them. */
  lemma AbsentSpawnedIsZero(server: ServerConfig, amount: int, apiKey: string, data: JsonObject, skipped: int, total: int)
    requires 1 <= amount <= MAX_AMOUNT
    requires Get(data, "spawned").None?
    requires Get(data, "skipped") == Some(JNumber(skipped)) && Get(data, "totalAiBots") == Some(JNumber(total))
    ensures Execute(Some(server), amount, Ok(apiKey), Ok(data)).1 == Spawned(server.name, amount, 0, skipped, total)
  {
  }
}
