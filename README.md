# Command-center bot: a Dafny model

This project models the core of a Discord bot that administers a set of game
servers. The bot also relays "yell" messages between Discord and those
servers. It has several parts:

- **Configuration.** The bot's settings come from a property table with an
  environment fallback (`BotConfiguration`). Each game server has an entry
  holding its host, port, command channel and yell channel. One flag can
  redirect every server to `localhost` (`ServerConfigs`). The command
  channels are mapped to their servers (`Channels`).
- **Commands.** Slash commands are registered by name and dispatched in
  `CommandManagement`. Each dispatch first passes a permission check that is
  hierarchical except at the top. Four commands are modelled in full: /mute,
  /ban, /loginai and /finditem (`MuteCommands`, `BanCommands`,
  `LoginAiCommands`, `FindItemCommands`). Each one calls the game server
  through the bot's HTTP client (`GameClient`): the request it issues, and how
  it reads the reply.
- **Yell relay, Discord to game.** `YellListener` forwards messages posted in
  a server's yell channel to that game server. Bot messages and blank
  messages are dropped, and a message is cut to 300 characters.
- **Yell relay, game to Discord.** `YellIngestion` is the HTTP endpoint the
  game servers POST yells to. A request goes through a chain of checks:
  method, Bearer key, message, server, channel. A request that passes all of
  them is formatted and put on the outbound queue. `YellQueue` is that queue:
  a FIFO drained by one consumer loop that honours a single rate-limit
  deadline, and re-queues a message that Discord rate-limited.
- **The game side of the API** (`ApiConfiguration`, `ApiRequests`,
  `ApiResponses`, `GameApi`). A configuration comes from its builder. A
  request's getters are typed, and a response envelope serialises to JSON.
  An authenticating wrapper around every endpoint checks the method, then the
  header, then the key. It maps the handler's result and its exceptions to
  the HTTP status codes 200, 400, 401, 405 and 500.

Shared pieces live in `Common`: `Option`/`Result`, Java's
`trim`/`startsWith`/case folding, and `Integer.toString`/`parseInt` with
their round trip. `Json` holds the parsed JSON values.

Some things the source does through the outside world become inputs here:
time, Discord, HTTP transport, the system environment, and what a remote
call returned. The game servers' answers are an input too, for example the
`Result<JsonObject>` each command receives. An exception is an `Err` carrying
its message, and a Java `null` is `None`.

Where the source updates state, the model is imperative:
- `ServerConfig` is a class whose test-mode flag is a `var`.
- `ChannelMapper`, `CommandManager`, `GameApiServer` and `Builder` are
  classes over a map or fields.
- `YellMessageQueue` is a class over a `seq`. Its methods are proved to
  perform the pure transitions `Iterate`/`Apply`/`Run`, and the multi-step
  properties (FIFO order, cooldown, stop) are proved about those transitions.
- The for- and while-loops of the source are `method`s, proved against the
  functions that specify them. These are `GetServerBy*`,
  `ChannelMapper.Initialize`, the listener's constructor,
  `ProcessMessages` and `BuildItemList`.

## Model

| member | source | states |
|---|---|---|
| Common.TrimStart | bot/src/main/java/com/rsps/discordbot/config/BotConfig.java:52 | the result is a suffix of the input; what was removed is blank; the result does not start with a trimmable character |
| Common.TrimEnd | bot/src/main/java/com/rsps/discordbot/config/BotConfig.java:52 | the result is a prefix of the input; what was removed is blank; the result does not end with a trimmable character |
| Common.Trim | bot/src/main/java/com/rsps/discordbot/config/BotConfig.java:52 | `trim()` gives the empty string exactly when the input is blank, and otherwise a core with no trimmable character at either end |
| Common.ToLower | bot/src/main/java/com/rsps/discordbot/client/GameServerClient.java:359 | keeps the length and folds every character |
| Common.ToLowerIdempotent | bot/src/main/java/com/rsps/discordbot/client/GameServerClient.java:359-362 | folding is idempotent: folding already folded text changes nothing |
| Common.ReplaceChar | bot/src/main/java/com/rsps/discordbot/client/GameServerClient.java:385 | keeps the length; each position holds the replacement exactly where the input held the replaced character |
| Common.ParseInt | bot/src/main/java/com/rsps/discordbot/config/BotConfig.java:133 | a successful `Integer.parseInt` yields a value in int range; which texts parse, and to what, is stated by the two lemmas below |
| Common.ParseIntNumeral | bot/src/main/java/com/rsps/discordbot/config/BotConfig.java:133 | an optional `+` or `-` followed by one or more ASCII digits parses to its signed value when that fits in an int, and is rejected otherwise, case by case in `ParseIntUnsigned`, `ParseIntPlus` and `ParseIntMinus` |
| Common.ParseIntOnlyNumerals | bot/src/main/java/com/rsps/discordbot/config/BotConfig.java:133 | nothing else parses: accepted text is non-empty, and after an optional sign holds at least one character, all of them ASCII digits |
| Common.ParseIntToString | bot/src/main/java/com/rsps/discordbot/config/BotConfig.java:133 | `parseInt(Integer.toString(n)) == n` for every int `n` |
| Common.IntToStringTrimmed | bot/src/main/java/com/rsps/discordbot/config/BotConfig.java:133 | printed ints are non-empty and unchanged by `trim()` |
| Common.IntToStringInjective | bot/src/main/java/com/rsps/discordbot/config/ServerConfig.java:74 | distinct ints print as distinct text |
| Common.FirstWhere | bot/src/main/java/com/rsps/discordbot/config/ServerConfig.java:146-153 | the index found is the first that satisfies the test; None means no element satisfies it |
| Common.LastByKeySpec | bot/src/main/java/com/rsps/discordbot/config/ChannelMapper.java:23-28 | a put-per-element loop maps a key iff some element carries it, and maps it to the last element that does |
| Json.AsString | bot/src/main/java/com/rsps/discordbot/yell/YellServer.java:120-122 | Gson's `getAsString`: a primitive's text, a one-element array's element, and a failure for null, objects and other arrays; a definition, stated by StringField |
| Json.Get | game-api-skeleton/src/main/java/com/rsps/api/ApiRequest.java:45 | `get` is non-null exactly for a present key whose value is not JSON null, and then returns that value |
| ServerConfigs.ServerConfig.constructor | bot/src/main/java/com/rsps/discordbot/config/ServerConfig.java:26-33 | the four-argument constructor stores its arguments, with no yell channel and testing mode off |
| ServerConfigs.ServerConfig.WithYellChannel | bot/src/main/java/com/rsps/discordbot/config/ServerConfig.java:35-42 | the five-argument constructor stores all five arguments, with testing mode off |
| ServerConfigs.ServerConfig.SetTestingMode | bot/src/main/java/com/rsps/discordbot/config/ServerConfig.java:47-49 | sets the flag and changes nothing else |
| ServerConfigs.ServerConfig.GetHost | bot/src/main/java/com/rsps/discordbot/config/ServerConfig.java:55-58 | testing mode overrides the configured host with localhost |
| ServerConfigs.ServerConfig.GetUrl | bot/src/main/java/com/rsps/discordbot/config/ServerConfig.java:72-75 | `http://`, the effective host, `:` and the port; a definition, stated by TestingModeUrl and UrlSeparatesPorts |
| ServerConfigs.TestingModeUrl | bot/src/main/java/com/rsps/discordbot/config/ServerConfig.java:72-75 | in testing mode the URL `GetUrl` builds is `http://localhost:<port>`, whatever the host |
| ServerConfigs.UrlSeparatesPorts | bot/src/main/java/com/rsps/discordbot/config/ServerConfig.java:72-75 | two servers on the same effective host with different ports have different `GetUrl` URLs |
| ServerConfigs.ServerByName | bot/src/main/java/com/rsps/discordbot/config/ServerConfig.java:146-154 | found iff some server's name matches ignoring case, and the result is the first such server |
| ServerConfigs.ServerByChannelId | bot/src/main/java/com/rsps/discordbot/config/ServerConfig.java:162-170 | found iff some server has exactly that command channel id (none for a null id), and the result is the first such server |
| ServerConfigs.ServerByYellChannelId | bot/src/main/java/com/rsps/discordbot/config/ServerConfig.java:178-186 | the same, for the yell channel id |
| ServerConfigs.GetServerByName | bot/src/main/java/com/rsps/discordbot/config/ServerConfig.java:146-154 | the loop with early return finds exactly the first case-insensitive match |
| ServerConfigs.GetServerByChannelId | bot/src/main/java/com/rsps/discordbot/config/ServerConfig.java:162-170 | the loop with early return finds exactly the first channel-id match |
| ServerConfigs.GetServerByYellChannelId | bot/src/main/java/com/rsps/discordbot/config/ServerConfig.java:178-186 | the loop with early return finds exactly the first yell-channel match |
| Channels.MapperKey | bot/src/main/java/com/rsps/discordbot/config/ChannelMapper.java:24-25 | a server is usable iff its channel id is non-null, non-empty and not the placeholder, and it is keyed by that id |
| Channels.ChannelMapper.constructor | bot/src/main/java/com/rsps/discordbot/config/ChannelMapper.java:12 | the map starts empty |
| Channels.ChannelMapper.Initialize | bot/src/main/java/com/rsps/discordbot/config/ChannelMapper.java:20-29 | after clear-and-fill, the map is the last-wins keying of the list by usable channel id, with nothing left from before |
| Channels.ChannelMapper.GetServerForChannel | bot/src/main/java/com/rsps/discordbot/config/ChannelMapper.java:40-42 | null exactly for an unmapped id; otherwise the mapped server |
| Channels.ChannelMapper.IsChannelMapped | bot/src/main/java/com/rsps/discordbot/config/ChannelMapper.java:50-52 | agrees with `getServerForChannel` being non-null on every id |
| Channels.ChannelMapper.GetMappedChannels | bot/src/main/java/com/rsps/discordbot/config/ChannelMapper.java:59-61 | exactly the ids that `isChannelMapped` accepts |
| Channels.InitializedMap | bot/src/main/java/com/rsps/discordbot/config/ChannelMapper.java:20-29 | an id is routed iff it is non-empty, not the placeholder and some server carries it; it routes to the last such server |
| Channels.UnusableIdsNeverMapped | bot/src/main/java/com/rsps/discordbot/config/ChannelMapper.java:24-25 | the empty id and the placeholder are never routed |
| CommandManagement.HasAdminRole | bot/src/main/java/com/rsps/discordbot/commands/CommandManager.java:174-188 | with no admin role configured (null or blank) the ADMINISTRATOR permission decides; otherwise holding the role does |
| CommandManagement.HasModeratorRole | bot/src/main/java/com/rsps/discordbot/commands/CommandManager.java:196-210 | with no moderator role configured the MANAGE_SERVER permission decides; otherwise holding the role does |
| CommandManagement.HasOptionalRole | bot/src/main/java/com/rsps/discordbot/commands/CommandManager.java:218-252 | the manager, owner and developer checks never pass for an unconfigured role, and otherwise pass iff the member holds it |
| CommandManagement.HasPermission | bot/src/main/java/com/rsps/discordbot/commands/CommandManager.java:131-134 | a missing member is refused at every level |
| CommandManagement.EveryoneAndGuildOwner | bot/src/main/java/com/rsps/discordbot/commands/CommandManager.java:137-161 | every member passes EVERYONE; the guild owner passes every level |
| CommandManagement.Monotone | bot/src/main/java/com/rsps/discordbot/commands/CommandManager.java:141-153 | passing MANAGER implies passing ADMIN, which implies passing MODERATOR |
| CommandManagement.NotLinearAtTheTop | bot/src/main/java/com/rsps/discordbot/commands/CommandManager.java:151-161 | the developer role passes OWNER but not MANAGER; the owner role passes MANAGER but not DEVELOPER |
| CommandManagement.UnconfiguredFallbacks | bot/src/main/java/com/rsps/discordbot/commands/CommandManager.java:137-161 | with no roles configured, ADMIN and MODERATOR fall back to Discord permissions, and MANAGER, OWNER and DEVELOPER admit only the guild owner |
| CommandManagement.CommandManager.constructor | bot/src/main/java/com/rsps/discordbot/commands/CommandManager.java:24-29 | starts from an empty map and registers the given list through `RegisterAll`, so the registry is `Registered(map[], cs)` |
| CommandManagement.CommandManager.RegisterCommand | bot/src/main/java/com/rsps/discordbot/commands/CommandManager.java:66-69 | the name now maps to the command, replacing any earlier one; other names are unchanged |
| CommandManagement.CommandManager.OnSlashCommand | bot/src/main/java/com/rsps/discordbot/commands/CommandManager.java:81-107 | unknown names get no reply; a known one is deferred with its ephemeral flag, then denied iff the permission check fails, else executed |
| CommandManagement.RegisterAll | bot/src/main/java/com/rsps/discordbot/commands/CommandManager.java:34-58 | registering a list leaves exactly the registry `Registered` computes from the old one, whose keys, last-wins entries and untouched entries the three lemmas below state |
| CommandManagement.RegisteredKeys | bot/src/main/java/com/rsps/discordbot/commands/CommandManager.java:66-69 | the names afterwards are exactly the old names plus the names registered; nothing else appears |
| CommandManagement.RegisteredLastWins | bot/src/main/java/com/rsps/discordbot/commands/CommandManager.java:66-69 | each registered name maps to the last command registered under it |
| CommandManagement.RegisteredKeepsOthers | bot/src/main/java/com/rsps/discordbot/commands/CommandManager.java:66-69 | a name no registered command carries keeps its old entry, or stays absent |
| BotConfiguration.Lookup | bot/src/main/java/com/rsps/discordbot/config/BotConfig.java:51 | `getProperty` is non-null exactly for a present key and returns its value |
| BotConfiguration.PropertyThenEnv | bot/src/main/java/com/rsps/discordbot/config/BotConfig.java:98-104 | a present, non-blank property wins; otherwise the environment variable, as it is |
| BotConfiguration.Required | bot/src/main/java/com/rsps/discordbot/config/BotConfig.java:50-75 | `getBotToken`/`getApiKey` succeed iff the fallback yields non-blank text, which they return; otherwise they throw the fixed message |
| BotConfiguration.GetCommandPrefix | bot/src/main/java/com/rsps/discordbot/config/BotConfig.java:82-91 | the prefix is never blank: the configured one when present, else "!" |
| BotConfiguration.GetYellServerPort | bot/src/main/java/com/rsps/discordbot/config/BotConfig.java:124-138 | always an int: 8091 when unset, blank or unparsable, else the parsed trimmed setting |
| BotConfiguration.PropertyWins | bot/src/main/java/com/rsps/discordbot/config/BotConfig.java:98-104 | a non-blank property makes the environment irrelevant |
| BotConfiguration.BlankPropertyFallsThrough | bot/src/main/java/com/rsps/discordbot/config/BotConfig.java:98-104 | a blank property is treated as if absent |
| BotConfiguration.NothingConfigured | bot/src/main/java/com/rsps/discordbot/config/BotConfig.java:50-138 | with nothing set, `getBotToken` and `getApiKey` throw, the prefix is "!", the port 8091, and `getAdminRoleId`/`getModeratorRoleId` are null |
| BotConfiguration.RoleIdsNotValidated | bot/src/main/java/com/rsps/discordbot/config/BotConfig.java:98-117 | the role-id getters have no default and no validation: with no property, the environment value is returned as it is, blank or not |
| BotConfiguration.PortRoundTrip | bot/src/main/java/com/rsps/discordbot/config/BotConfig.java:124-138 | a port written as padded decimal is read back exactly |
| BotConfiguration.TrimPadded | bot/src/main/java/com/rsps/discordbot/config/BotConfig.java:133 | trimming removes exactly the blank padding around a trimmed core |
| BotConfiguration.TrimStartPadded | bot/src/main/java/com/rsps/discordbot/config/BotConfig.java:133 | the left strip removes exactly a blank prefix |
| BotConfiguration.TrimEndPadded | bot/src/main/java/com/rsps/discordbot/config/BotConfig.java:133 | the right strip removes exactly a blank suffix |
| GameClient.NewClient | bot/src/main/java/com/rsps/discordbot/client/GameServerClient.java:26-28 | one trailing slash, if any, is removed from the base URL; the key is kept |
| GameClient.OnlyOneSlashRemoved | bot/src/main/java/com/rsps/discordbot/client/GameServerClient.java:27 | of two trailing slashes one survives |
| GameClient.Post | bot/src/main/java/com/rsps/discordbot/client/GameServerClient.java:413-428 | the URL is base plus endpoint; both credential headers carry the key, the Authorization one after "Bearer " |
| GameClient.PutString | bot/src/main/java/com/rsps/discordbot/client/GameServerClient.java:360 | a null value leaves the key out of the serialised payload, and a non-null one sets it; other keys are untouched |
| GameClient.MutePlayerDefault | bot/src/main/java/com/rsps/discordbot/client/GameServerClient.java:122-137 | `mutePlayer(username)` posts to /mute with the payload built by `MutePlayer` and a 60-minute duration |
| GameClient.BanPlayerDefault | bot/src/main/java/com/rsps/discordbot/client/GameServerClient.java:215-230 | `banPlayer(username)` posts to /ban with the payload built by `BanPlayer` and a 7-day duration |
| GameClient.SendMessage | bot/src/main/java/com/rsps/discordbot/client/GameServerClient.java:356-367 | the action, the lower-cased type, the message iff it is non-null, and a player name iff the type is "Player" in any case and the name is non-null; no other keys |
| GameClient.ExecuteCommand | bot/src/main/java/com/rsps/discordbot/client/GameServerClient.java:377-391 | "Custom Command" becomes "custom" with the custom text under "customCommand" when it is non-null; other names are lower-cased with spaces as underscores, plus a non-empty parameter; each branch sends no other keys |
| GameClient.CommandNameNormalised | bot/src/main/java/com/rsps/discordbot/client/GameServerClient.java:385 | the wire name of a command never contains a space or an upper-case ASCII letter |
| GameClient.ParseErrorMessage | bot/src/main/java/com/rsps/discordbot/client/GameServerClient.java:465-485 | null for a blank body or no error field; the raw body when parsing or `getAsString` fails; else the first of error, message, errorMessage |
| GameClient.ErrorFieldFirst | bot/src/main/java/com/rsps/discordbot/client/GameServerClient.java:472-473 | "error" wins over the other fields |
| GameClient.MessageFieldSecond | bot/src/main/java/com/rsps/discordbot/client/GameServerClient.java:474-475 | "message" is used when "error" is absent |
| GameClient.ParseResponseData | bot/src/main/java/com/rsps/discordbot/client/GameServerClient.java:493-510 | the "data" object when the body is an object holding one, an empty map otherwise |
| GameClient.SendPostRequestWithResponse | bot/src/main/java/com/rsps/discordbot/client/GameServerClient.java:431-456 | success iff the status is 2xx, yielding the data; otherwise the parsed error text, or the status text when that is null or empty; transport failures propagate |
| GameClient.RejectionNeverSilent | bot/src/main/java/com/rsps/discordbot/client/GameServerClient.java:444-451 | a non-2xx status always fails with non-empty text |
| GameClient.EmptyErrorFieldFallsBack | bot/src/main/java/com/rsps/discordbot/client/GameServerClient.java:447-450 | an empty "error" field falls back to "Server returned status code: N" |
| MuteCommands.DurationDisplay | bot/src/main/java/com/rsps/discordbot/commands/MuteCommand.java:57-68 | below an hour, plain minutes; otherwise hours at least 1 and minutes below 60 that add back up to the duration |
| MuteCommands.HoursMinutesUnique | bot/src/main/java/com/rsps/discordbot/commands/MuteCommand.java:59-60 | the hour/minute split is unique, so the display depends on the duration alone |
| MuteCommands.Execute | bot/src/main/java/com/rsps/discordbot/commands/MuteCommand.java:37-82 | no server: the channel error and no call; a missing key escapes; otherwise the mute request for the server's URL, then the success reply or "Failed to mute player: " plus the error; the duration is the option or 60 (`Duration`) |
| MuteCommands.DefaultMute | bot/src/main/java/com/rsps/discordbot/commands/MuteCommand.java:48 | without the option the request carries 60 and the reply shows "1 hour(s)" |
| MuteCommands.NinetyMinutes | bot/src/main/java/com/rsps/discordbot/commands/MuteCommand.java:57-68 | 90 minutes display as "1 hour(s) and 30 minute(s)" |
| MuteCommands.HourAndAHalfText | bot/src/main/java/com/rsps/discordbot/commands/MuteCommand.java:61-64 | one hour and thirty minutes are written "1 hour(s) and 30 minute(s)" |
| MuteCommands.TwoHours | bot/src/main/java/com/rsps/discordbot/commands/MuteCommand.java:57-68 | 120 minutes display as "2 hour(s)", with no minutes part |
| MuteCommands.FortyFiveMinutes | bot/src/main/java/com/rsps/discordbot/commands/MuteCommand.java:57-68 | 45 minutes display as "45 minute(s)" |
| BanCommands.DurationDisplay | bot/src/main/java/com/rsps/discordbot/commands/BanCommand.java:57-69 | "1 day"; "1 year" below two years; from two years on, the whole years rounded down; otherwise days, zero and negatives included |
| BanCommands.YearsRoundDown | bot/src/main/java/com/rsps/discordbot/commands/BanCommand.java:61-65 | y whole years plus any part of a year display as y years |
| BanCommands.Execute | bot/src/main/java/com/rsps/discordbot/commands/BanCommand.java:38-83 | the same shape as /mute, with the ban request, the option or 7 days (`Duration`), and "Failed to ban player: " |
| BanCommands.DefaultBan | bot/src/main/java/com/rsps/discordbot/commands/BanCommand.java:48 | without the option the request carries 7 and the reply shows "7 days" |
| BanCommands.DisplayEdges | bot/src/main/java/com/rsps/discordbot/commands/BanCommand.java:57-69 | 0 and -3 display as days; 729 days display as one year |
| LoginAiCommands.Count | bot/src/main/java/com/rsps/discordbot/commands/LoginAiCommand.java:67-69 | a null count is 0, a number is taken as is, and anything else fails the cast |
| LoginAiCommands.Execute | bot/src/main/java/com/rsps/discordbot/commands/LoginAiCommand.java:37-85 | a call happens iff there is a server, the amount is in 1..50 and the key is available; each refusal has its message; after an Ok call the first count that fails its cast is the error, and otherwise the reply carries the server name, the amount and the three counts |
| LoginAiCommands.AmountCheckedBeforeKey | bot/src/main/java/com/rsps/discordbot/commands/LoginAiCommand.java:50-61 | an out-of-range amount is refused before the key is read, whether or not a key exists |
| LoginAiCommands.MissingCountsAreZero | bot/src/main/java/com/rsps/discordbot/commands/LoginAiCommand.java:67-69 | a reply without counts reports zeros |
| LoginAiCommands.AbsentSpawnedIsZero | bot/src/main/java/com/rsps/discordbot/commands/LoginAiCommand.java:67-69 | an absent spawned count reads as 0 whatever other data the reply holds, and the other counts are reported as sent |
| FindItemCommands.ItemName | bot/src/main/java/com/rsps/discordbot/commands/FindItemCommand.java:78 | a missing name prints as "null", a string as itself, anything else fails the cast |
| FindItemCommands.ItemId | bot/src/main/java/com/rsps/discordbot/commands/FindItemCommand.java:77-88 | a missing id is a NullPointerException; a number id gives `Ok` with that number; a text id gives `Ok` with its `parseInt` value when it parses, and the `For input string` failure otherwise; a boolean, list or object id fails with a NumberFormatException |
| FindItemCommands.ItemLine | bot/src/main/java/com/rsps/discordbot/commands/FindItemCommand.java:74-91 | a null element fails with a NullPointerException at its first `get`; any other non-object fails the cast; a bad name fails before the id is looked at, and a bad id then fails with its own error; the line succeeds exactly for an object whose name and id both convert, and is then name and id in the fixed format |
| FindItemCommands.Listed | bot/src/main/java/com/rsps/discordbot/commands/FindItemCommand.java:75 | the items whose lines are built: the first fifty, or all of them when there are at most fifty |
| FindItemCommands.LinesSnoc | bot/src/main/java/com/rsps/discordbot/commands/FindItemCommand.java:74-91 | one more item appends its line to `Lines`, unless an earlier item or it fails |
| FindItemCommands.LinesAppend | bot/src/main/java/com/rsps/discordbot/commands/FindItemCommand.java:74-91 | the listing preserves order: for any line function, the listing of a concatenation is the two listings concatenated |
| FindItemCommands.FailureSticks | bot/src/main/java/com/rsps/discordbot/commands/FindItemCommand.java:74-91 | for any line function, once an item fails, every longer prefix fails with the same error |
| FindItemCommands.ListedPrefix | bot/src/main/java/com/rsps/discordbot/commands/FindItemCommand.java:75 | a loop that stops at the end or at fifty items has seen exactly the listed items |
| FindItemCommands.FailureIsListed | bot/src/main/java/com/rsps/discordbot/commands/FindItemCommand.java:74-91 | a failing item among the first fifty makes the whole listing fail with that item's error |
| FindItemCommands.FiftyFirstIsCast | bot/src/main/java/com/rsps/discordbot/commands/FindItemCommand.java:74-75 | a fifty-first element that is neither an object nor null fails the listing with a ClassCastException, although its line is never built |
| FindItemCommands.TailIgnored | bot/src/main/java/com/rsps/discordbot/commands/FindItemCommand.java:74-75 | nothing after the fifty-first element affects the listing |
| FindItemCommands.LineLength | bot/src/main/java/com/rsps/discordbot/commands/FindItemCommand.java:90 | every line holds the fixed fifteen characters (with at least one digit) besides the name |
| FindItemCommands.LinesLength | bot/src/main/java/com/rsps/discordbot/commands/FindItemCommand.java:74-92 | with names of at least `k` characters, a listing of `n` items is at least `(15 + k) * n` characters long |
| FindItemCommands.FullListingOverflows | bot/src/main/java/com/rsps/discordbot/commands/FindItemCommand.java:74-94 | fifty listed items with names of six characters or more exceed the 1024-character field value limit |
| FindItemCommands.BuildItemList | bot/src/main/java/com/rsps/discordbot/commands/FindItemCommand.java:72-92 | the loop with its per-element cast, its count and its break produces `ItemList`: the lines of the first fifty items, or the first failure among them or in the cast of the fifty-first |
| FindItemCommands.Execute | bot/src/main/java/com/rsps/discordbot/commands/FindItemCommand.java:39-100 | missing or empty items: "No items found"; a non-list fails; otherwise the count of all items (`Description`) and `ItemList`, or "Failed to search items: " with its failure; a listing over 1024 characters fails when it is added as an embed field |
| YellQueue.CooldownStep | bot/src/main/java/com/rsps/discordbot/yell/YellMessageQueue.java:87-93 | inside the cooldown a pass sleeps exactly until the deadline and changes nothing |
| YellQueue.EmptyQueueStep | bot/src/main/java/com/rsps/discordbot/yell/YellMessageQueue.java:96-100 | a pass over an empty queue changes nothing |
| YellQueue.Iterate | bot/src/main/java/com/rsps/discordbot/yell/YellMessageQueue.java:84-140 | one pass of the loop body: exit, cooldown sleep, idle sleep, or poll and send; a definition, stated by CooldownStep, EmptyQueueStep and ProcessOnce |
| YellQueue.AfterSend | bot/src/main/java/com/rsps/discordbot/yell/YellMessageQueue.java:104-131 | the send callbacks: re-queue with a deadline on a rate limit, nothing otherwise; a definition, stated by RateLimitedRequeues, FallbackRateLimitRequeues and OtherOutcomesDrop |
| YellQueue.Apply | bot/src/main/java/com/rsps/discordbot/yell/YellMessageQueue.java:31-140 | one event: `queueMessage`, `clearMessages`, `start`, `stop` or a pass of the loop; a definition, stated by RunGrowth and FifoStep |
| YellQueue.Run | bot/src/main/java/com/rsps/discordbot/yell/YellMessageQueue.java:31-140 | the state after a sequence of events and the messages sent, in order; a definition, stated by Fifo, CooldownHoldsBack and StoppedSendsNothing |
| YellQueue.RateLimitedRequeues | bot/src/main/java/com/rsps/discordbot/yell/YellMessageQueue.java:114-122 | a rate limit (`Iterate`, then the callback `AfterSend`) moves the head to the tail and sets the deadline to the callback time plus retry-after |
| YellQueue.FallbackRateLimitRequeues | bot/src/main/java/com/rsps/discordbot/yell/YellMessageQueue.java:123-130 | a failure mentioning "rate limit" re-queues with a 5000 ms cooldown |
| YellQueue.OtherOutcomesDrop | bot/src/main/java/com/rsps/discordbot/yell/YellMessageQueue.java:103-140 | any other outcome drops the head for good and keeps the deadline; only a synchronous throw skips the pacing pause |
| YellQueue.RunGrowth | bot/src/main/java/com/rsps/discordbot/yell/YellMessageQueue.java:58-130 | no event grows the queue by more than one |
| YellQueue.FifoStep | bot/src/main/java/com/rsps/discordbot/yell/YellMessageQueue.java:58-140 | one event without a clear or a re-queue adds the enqueued message, if any, at the end of the sent messages followed by those waiting |
| YellQueue.Fifo | bot/src/main/java/com/rsps/discordbot/yell/YellMessageQueue.java:58-140 | with no clear and no re-queue, the messages `Run` sends followed by those waiting are the initial queue followed by everything enqueued, in order |
| YellQueue.CooldownHoldsBack | bot/src/main/java/com/rsps/discordbot/yell/YellMessageQueue.java:87-93 | while every pass reads a time before the deadline, nothing is sent and the deadline holds |
| YellQueue.StoppedSendsNothing | bot/src/main/java/com/rsps/discordbot/yell/YellMessageQueue.java:47-53 | once stopped and until restarted, nothing is sent |
| YellQueue.Steps | bot/src/main/java/com/rsps/discordbot/yell/YellMessageQueue.java:84 | one loop pass per clock reading, in order |
| YellQueue.YellMessageQueue.constructor | bot/src/main/java/com/rsps/discordbot/yell/YellMessageQueue.java:20-26 | empty, not running, no deadline |
| YellQueue.YellMessageQueue.Start | bot/src/main/java/com/rsps/discordbot/yell/YellMessageQueue.java:31-42 | running afterwards; a second start creates no second thread |
| YellQueue.YellMessageQueue.Stop | bot/src/main/java/com/rsps/discordbot/yell/YellMessageQueue.java:47-53 | not running afterwards; nothing else changes |
| YellQueue.YellMessageQueue.QueueMessage | bot/src/main/java/com/rsps/discordbot/yell/YellMessageQueue.java:58-61 | appends at the tail unless the queue is at capacity (`Offer`), which is the `Apply` of an Enqueue event |
| YellQueue.YellMessageQueue.ClearMessages | bot/src/main/java/com/rsps/discordbot/yell/YellMessageQueue.java:66-71 | returns how many were waiting and empties the queue |
| YellQueue.YellMessageQueue.GetQueueSize | bot/src/main/java/com/rsps/discordbot/yell/YellMessageQueue.java:76-78 | the number waiting |
| YellQueue.YellMessageQueue.ProcessOnce | bot/src/main/java/com/rsps/discordbot/yell/YellMessageQueue.java:84-140 | one pass of the loop performs exactly the transition `Iterate` |
| YellQueue.YellMessageQueue.ProcessMessages | bot/src/main/java/com/rsps/discordbot/yell/YellMessageQueue.java:83-151 | the loop performs exactly the run of its passes, stopping at the first pass that finds it stopped |
| YellQueue.StoppedRestIsExit | bot/src/main/java/com/rsps/discordbot/yell/YellMessageQueue.java:84 | once not running, every remaining pass is an exit |
| YellIngestion.Status | bot/src/main/java/com/rsps/discordbot/yell/YellServer.java:94-158 | 200 exactly for a queued message |
| YellIngestion.FindServerByApiKey | bot/src/main/java/com/rsps/discordbot/yell/YellServer.java:174-183 | throws iff no key is configured; a matching key resolves to the first server, or to none with no servers |
| YellIngestion.FormatYellMessage | bot/src/main/java/com/rsps/discordbot/yell/YellServer.java:201-207 | starts with the bold server tag and ends with the whole message; the sender is included iff non-blank |
| YellIngestion.FormattedMessageIntact | bot/src/main/java/com/rsps/discordbot/yell/YellServer.java:201-207 | the message follows a head that depends only on the server and the sender |
| YellIngestion.StringField | bot/src/main/java/com/rsps/discordbot/yell/YellServer.java:120-122 | an absent key is null; a present one reads iff `getAsString` succeeds, giving its value |
| YellIngestion.HandleRequest | bot/src/main/java/com/rsps/discordbot/yell/YellServer.java:94-158 | a message is queued only for an authorised POST, and only to a channel the bot can see |
| YellIngestion.QueuedIff | bot/src/main/java/com/rsps/discordbot/yell/YellServer.java:94-153 | queued iff POST, authorised, a readable body and a non-blank message, an addressed server resolving to a known channel; what is queued is that channel and the formatted text |
| YellIngestion.NonPostRejected | bot/src/main/java/com/rsps/discordbot/yell/YellServer.java:94-97 | any method other than POST is 405 |
| YellIngestion.UnauthorizedIgnoresBody | bot/src/main/java/com/rsps/discordbot/yell/YellServer.java:101-114 | a bad header, a wrong key or no servers give 401 without the body being read |
| YellIngestion.BlankMessageRejected | bot/src/main/java/com/rsps/discordbot/yell/YellServer.java:124-127 | an absent or blank message is 400 |
| YellIngestion.UnreadableBodyIsInternalError | bot/src/main/java/com/rsps/discordbot/yell/YellServer.java:116-122 | a malformed body or an unreadable message ends in the catch-all 500 |
| YellIngestion.UnknownServerIs400 | bot/src/main/java/com/rsps/discordbot/yell/YellServer.java:129-135 | a non-blank server name that no configured server matches is 400 "Server not found", naming it |
| YellIngestion.UnknownChannelIs500 | bot/src/main/java/com/rsps/discordbot/yell/YellServer.java:137-144 | an addressed server whose channel the bot cannot see is 500 "Discord channel not found" |
| YellIngestion.YellServer.constructor | bot/src/main/java/com/rsps/discordbot/yell/YellServer.java:33-40 | stores the servers, the key lookup and the channels, and builds a fresh queue of its own: empty, not running, no deadline |
| YellIngestion.YellServer.FindServerByName | bot/src/main/java/com/rsps/discordbot/yell/YellServer.java:189-196 | the first case-insensitive name match |
| YellIngestion.YellServer.Handle | bot/src/main/java/com/rsps/discordbot/yell/YellServer.java:94-153 | the reply of the decision chain; exactly one message is enqueued iff the reply is 200 |
| YellListener.YellKey | bot/src/main/java/com/rsps/discordbot/listeners/YellChannelListener.java:37 | a server is listened to iff its yell channel id is non-null and non-empty |
| YellListener.ClientsForOwners | bot/src/main/java/com/rsps/discordbot/listeners/YellChannelListener.java:36-41 | the client map has the keys of the last-wins server map, each client built from that server's URL |
| YellListener.ClientsForSpec | bot/src/main/java/com/rsps/discordbot/listeners/YellChannelListener.java:36-41 | the map `ClientsFor` builds: a channel has a client iff it is non-empty and some server names it; the client targets the last server naming it |
| YellListener.Truncate | bot/src/main/java/com/rsps/discordbot/listeners/YellChannelListener.java:76-78 | the result is a prefix of at most 300 characters, the whole input when that fits, and exactly 300 otherwise |
| YellListener.YellChannelListener.constructor | bot/src/main/java/com/rsps/discordbot/listeners/YellChannelListener.java:29-42 | the loop builds exactly the client map `ClientsFor` describes |
| YellListener.YellChannelListener.OnMessageReceived | bot/src/main/java/com/rsps/discordbot/listeners/YellChannelListener.java:45-87 | forwarded iff not from a bot, in a yell channel, and non-blank; to that channel's client, under the member's name or else the author's; a text of at most 300 characters is forwarded whole, a longer one as exactly its first 300 characters |
| YellListener.YellChannelListener.ForwardRequest | bot/src/main/java/com/rsps/discordbot/listeners/YellChannelListener.java:82 | posts to /discord-yell with exactly two keys, holding the user name and the message |
| YellListener.NewListener | bot/src/main/java/com/rsps/discordbot/listeners/YellChannelListener.java:29-42 | construction throws iff some server has a yell channel and no key is configured; otherwise the clients as above |
| YellListener.NoYellChannelsNoClients | bot/src/main/java/com/rsps/discordbot/listeners/YellChannelListener.java:36-41 | with no usable yell channel the map is empty |
| ApiConfiguration.Builder.constructor | game-api-skeleton/src/main/java/com/rsps/api/ApiConfig.java:31-33 | the defaults: port 8090, no key, pool size 10 |
| ApiConfiguration.Builder.Port | game-api-skeleton/src/main/java/com/rsps/api/ApiConfig.java:35-38 | sets the port only |
| ApiConfiguration.Builder.ApiKey | game-api-skeleton/src/main/java/com/rsps/api/ApiConfig.java:40-43 | sets the key only |
| ApiConfiguration.Builder.ThreadPoolSize | game-api-skeleton/src/main/java/com/rsps/api/ApiConfig.java:45-48 | sets the pool size only |
| ApiConfiguration.Builder.Build | game-api-skeleton/src/main/java/com/rsps/api/ApiConfig.java:50-55 | fails iff the key is null or blank; otherwise the settings unchanged, with a non-blank key |
| ApiConfiguration.BuildWithKey | game-api-skeleton/src/main/java/com/rsps/api/ApiConfig.java:31-55 | a builder given only a key yields the defaults with that key, or fails on a blank key |
| ApiRequests.IntValue | game-api-skeleton/src/main/java/com/rsps/api/ApiRequest.java:56 | `Long.intValue` is the int congruent to the value modulo 2^32 |
| ApiRequests.IntValueUnique | game-api-skeleton/src/main/java/com/rsps/api/ApiRequest.java:56 | that int is unique |
| ApiRequests.IntValueInRange | game-api-skeleton/src/main/java/com/rsps/api/ApiRequest.java:56 | values in int range pass through unchanged |
| ApiRequests.IntValueWraps | game-api-skeleton/src/main/java/com/rsps/api/ApiRequest.java:56 | values outside the range wrap around |
| ApiRequests.GetString | game-api-skeleton/src/main/java/com/rsps/api/ApiRequest.java:44-46 | a null body throws; a missing key is null; a string is returned; any other type fails the cast, which is never an illegal argument |
| ApiRequests.GetInt | game-api-skeleton/src/main/java/com/rsps/api/ApiRequest.java:52-64 | a Long is narrowed by `intValue`, an Integer passes, null stays null; anything else is an illegal argument naming the key |
| ApiRequests.GetBoolean | game-api-skeleton/src/main/java/com/rsps/api/ApiRequest.java:69-78 | a Boolean or null passes; anything else is an illegal argument naming the key |
| ApiRequests.GetIntExact | game-api-skeleton/src/main/java/com/rsps/api/ApiRequest.java:52-64 | an int-range number is read back exactly, however it was boxed |
| ApiRequests.WrongTypeExceptions | game-api-skeleton/src/main/java/com/rsps/api/ApiRequest.java:44-78 | the number and boolean getters raise an illegal argument for text; the string getter fails the cast for a boolean |
| ApiResponses.Success | game-api-skeleton/src/main/java/com/rsps/api/ApiResponse.java:20-22 | successful, with the message and no data |
| ApiResponses.SuccessWith | game-api-skeleton/src/main/java/com/rsps/api/ApiResponse.java:24-26 | successful with the data; null data equals `success(message)` |
| ApiResponses.Error | game-api-skeleton/src/main/java/com/rsps/api/ApiResponse.java:28-30 | failed, with the message and never with data |
| ApiResponses.ToJson | game-api-skeleton/src/main/java/com/rsps/api/ApiResponse.java:33-41 | the keys are success and message, plus data iff there is data, each with its value |
| ApiResponses.FromJson | game-api-skeleton/src/main/java/com/rsps/api/ApiResponse.java:33-41 | the decoder paired with `toJson` (the source has none): a decoded response agrees with the object's success, message and data fields |
| ApiResponses.JsonRoundTrip | game-api-skeleton/src/main/java/com/rsps/api/ApiResponse.java:33-53 | decoding the JSON of a response gives that response back |
| ApiResponses.ToJsonInjective | game-api-skeleton/src/main/java/com/rsps/api/ApiResponse.java:33-41 | different responses serialise differently |
| GameApi.ParseRequest | game-api-skeleton/src/main/java/com/rsps/api/ApiRequest.java:30-39 | a parse failure iff the text is malformed; an object or null becomes a request authenticated as DiscordBot; other documents fail the cast |
| GameApi.Caught | game-api-skeleton/src/main/java/com/rsps/api/GameApiServer.java:290-296 | an illegal argument is 400 and anything else 500, always as an error without data |
| GameApi.AuthenticatedHandle | game-api-skeleton/src/main/java/com/rsps/api/GameApiServer.java:253-297 | a 200 is only ever sent for an authenticated request and a successful response; an unauthenticated one always gets an error response |
| GameApi.MethodCheckedFirst | game-api-skeleton/src/main/java/com/rsps/api/GameApiServer.java:257-260 | a method mismatch is 405 whatever the header |
| GameApi.UnauthenticatedIs401 | game-api-skeleton/src/main/java/com/rsps/api/GameApiServer.java:263-276 | a missing header or a wrong key is 401, independent of the body |
| GameApi.HandlerGuarded | game-api-skeleton/src/main/java/com/rsps/api/GameApiServer.java:257-282 | before all three checks pass, the handler is not consulted, and the reply is 401 or 405 |
| GameApi.HandlerStatus | game-api-skeleton/src/main/java/com/rsps/api/GameApiServer.java:279-286 | once authenticated, the handler's response is sent with 200 iff it is a success, else 400 |
| GameApi.ExceptionStatus | game-api-skeleton/src/main/java/com/rsps/api/GameApiServer.java:288-296 | malformed JSON is 400, a failed cast 500, and a handler exception 400 or 500 by its kind |
| GameApi.StatusesUsed | game-api-skeleton/src/main/java/com/rsps/api/GameApiServer.java:253-297 | the only statuses are 200, 400, 401, 405 and 500, and 200 exactly for a successful response |
| GameApi.ClientRequestAuthenticated | game-api-skeleton/src/main/java/com/rsps/api/GameApiServer.java:263-276 | a request from the bot's client that holds the server's key passes the checks of a POST endpoint |
| GameApi.ClientReadsReply | game-api-skeleton/src/main/java/com/rsps/api/GameApiServer.java:285-286 | the bot reads a 2xx reply as its data, and a rejection as its message |
| GameApi.GameApiServer.constructor | game-api-skeleton/src/main/java/com/rsps/api/GameApiServer.java:22-28 | the configuration, with no endpoints |
| GameApi.GameApiServer.RegisterEndpoint | game-api-skeleton/src/main/java/com/rsps/api/GameApiServer.java:36-38 | the path now maps to the handler, replacing any earlier one; other paths are unchanged |
| GameApi.GameApiServer.Serve | game-api-skeleton/src/main/java/com/rsps/api/GameApiServer.java:206-212 | a registered path answers with the wrapped handler, an unregistered one not at all |

## Left out

- The source's I/O is not modelled: loading `bot.properties` and `servers.xml`, and Discord (JDA). HTTP transport, threads, sleeps and logging are left out too. Their results are inputs: parsed bodies, send outcomes and clock readings.
- JSON text is not modelled. Parsing (Gson, json-simple) and serialisation are replaced by parsed values, and the key order and printed form of json-simple's output are left out.
- Floating point is not modelled. Gson reads numbers as `Double`, but the model treats them as integers, so `Double.intValue` saturation and printed fractions are not represented.
- JVM exception texts are fixed constants (`ClassCastException`, `NullPointerException`, `NumberFormatException`). A `toString()` of a non-text id that fails `parseInt` uses the constant instead of its "For input string" text.
- ParseInt: only ASCII digits are accepted. `Integer.parseInt` also accepts other Unicode decimal digits, so a port such as "８０９２" (fullwidth digits) gives 8092 in Java and the 8091 default in the model.
- A null `type` in `sendMessage`, or a null `command` in `executeCommand`, makes the Java throw a NullPointerException. The model's arguments are non-null strings, so that failure is not represented.
- Java strings are Dafny character sequences. Case folding covers ASCII letters only, and there is no UTF-16 surrogate handling.
- Some methods are missing from the source: `botConfig.getManagerRoleId`, `getOwnerRoleId` and `getDeveloperRoleId`. The role ids are therefore an input (`RoleConfig`). `ServerConfig.getApiKey` is missing too, so every command uses the bot's key lookup. That lookup happens before the command's try block, so a missing key escapes `execute` (`Escaped`), to be reported by the command manager's catch.
- The permission denial, the command manager's exception embed, and the other commands' embeds are reduced to their content. Colours, titles and fields are left out.
- FindItemCommands.Execute: of the limits the Discord library enforces on the reply embed, only the 1024-character field value is modelled, measured in characters of the model rather than Java's UTF-16 units and before any trimming the library does. The 6000-character limit on the whole embed, checked when the embed is built, is not modelled. The library's exception text is the placeholder `FIELD_TOO_LONG`. The library itself is not part of this model.
- Only /mute, /ban, /loginai and /finditem are modelled in full. The other commands are registered but not modelled; they follow the same client-call shape.
- The integer value of a Discord option (`getAsInt`) is taken as an `int`. Its overflow behaviour is not modelled.
- `HttpServer` routes by path prefix. `GameApi.GameApiServer.Serve` matches the path exactly.
- A handler that returns null and causes a 500 is not modelled. `Handler.handle` always returns a response or raises an exception.
- `ApiResponse` allows a null message, but the model's message is always a string.
- Annotation-driven registration (`registerHandlersInPackage`) is not modelled. It is class-path scanning, and only explicit `registerEndpoint` calls are.
- The queue's failure callback is asynchronous in the source. The model runs it inside the same pass, with its own clock reading (`at`).
- `YellQueue.YellMessageQueue.Stop`: thread interruption is not modelled, so a pass that is sleeping when the stop arrives is not cut short.
- `YellListener.YellChannelListener.OnMessageReceived` stops at the request to the game server. That request's own failure is only logged by the source, so it is not modelled.
- A server with no command channel id makes the ingestion endpoint's channel lookup throw, which ends in the catch-all 500. A non-numeric id, which makes the lookup throw in the same way, is treated as an unknown channel.
- The message-ingestion endpoint does not cut messages to 300 characters, and it adds a bold server tag. A malformed or non-object body ends in the catch-all 500, not in a 400.
