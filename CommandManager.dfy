/** Slash-command registration, dispatch and the hierarchical permission
    check. A guild member is reduced to their role ids and the two Discord
    permissions the check consults; the command implementations themselves
    are opaque values carrying a name, a required level and the ephemeral
    flag. */
module CommandManagement {
  import opened Common

  /** The levels the permission switch distinguishes, DEVELOPER included. */
  datatype PermissionLevel = Everyone | Moderator | Admin | Manager | Owner | Developer

  /** The error every server-scoped command shows in a channel that maps to
      no server. */
  const NOT_SERVER_CHANNEL: string :=
    "This command can only be used in server-specific channels (Fantasy, Vale, or Azerite)."

  datatype Command = Command(name: string, requiredPermission: PermissionLevel, ephemeral: bool)

  /** A guild member as the checks see them. `administrator` and
      `manageServer` are the member's granted Discord permissions. */
  datatype Member = Member(roleIds: seq<string>, isOwner: bool, administrator: bool, manageServer: bool)

  /** The configured role ids; each may be missing or blank. */
  datatype RoleConfig = RoleConfig(
    adminRoleId: Option<string>,
    moderatorRoleId: Option<string>,
    managerRoleId: Option<string>,
    ownerRoleId: Option<string>,
    developerRoleId: Option<string>)

  datatype DiscordPermission = Administrator | ManageServer

  /** JDA's Member.hasPermission: the guild owner and administrators hold
      every permission. */
  predicate HasDiscordPermission(m: Member, p: DiscordPermission) {
    m.isOwner || m.administrator || (p == ManageServer && m.manageServer)
  }

  /** The for-loop over `member.getRoles()` comparing ids with `equals`. */
  predicate HoldsRole(m: Member, roleId: string) {
    exists i | 0 <= i < |m.roleIds| :: m.roleIds[i] == roleId
  }

  /** `hasAdminRole`: with no admin role configured, the ADMINISTRATOR
      permission stands in for it. */
  function HasAdminRole(m: Member, roles: RoleConfig): (b: bool)
    ensures !IsPresent(roles.adminRoleId) ==> (b <==> HasDiscordPermission(m, Administrator))
    ensures IsPresent(roles.adminRoleId) ==> (b <==> HoldsRole(m, roles.adminRoleId.value))
  {
    if !IsPresent(roles.adminRoleId) then HasDiscordPermission(m, Administrator)
    else HoldsRole(m, roles.adminRoleId.value)
  }

  /** `hasModeratorRole`: with no moderator role configured, the
      MANAGE_SERVER permission stands in for it. */
  function HasModeratorRole(m: Member, roles: RoleConfig): (b: bool)
    ensures !IsPresent(roles.moderatorRoleId) ==> (b <==> HasDiscordPermission(m, ManageServer))
    ensures IsPresent(roles.moderatorRoleId) ==> (b <==> HoldsRole(m, roles.moderatorRoleId.value))
  {
    if !IsPresent(roles.moderatorRoleId) then HasDiscordPermission(m, ManageServer)
    else HoldsRole(m, roles.moderatorRoleId.value)
  }

  /** The manager, owner and developer checks: an unconfigured role never
      matches. */
  function HasOptionalRole(m: Member, roleId: Option<string>): (b: bool)
    ensures b ==> IsPresent(roleId)
    ensures IsPresent(roleId) ==> (b <==> HoldsRole(m, roleId.value))
  {
    IsPresent(roleId) && HoldsRole(m, roleId.value)
  }

  function HasManagerRole(m: Member, roles: RoleConfig): bool {
    HasOptionalRole(m, roles.managerRoleId)
  }

  function HasOwnerRole(m: Member, roles: RoleConfig): bool {
    HasOptionalRole(m, roles.ownerRoleId)
  }

  function HasDeveloperRole(m: Member, roles: RoleConfig): bool {
    HasOptionalRole(m, roles.developerRoleId)
  }

  /** `hasPermission`; a missing member (a command used outside a guild) is
      refused at every level. */
  function HasPermission(member: Option<Member>, level: PermissionLevel, roles: RoleConfig): (b: bool)
    ensures member.None? ==> !b
  {
    if member.None? then false
    else
      var m := member.value;
      match level
      case Everyone => true
      case Moderator =>
        HasModeratorRole(m, roles) || HasAdminRole(m, roles) || HasManagerRole(m, roles)
        || HasOwnerRole(m, roles) || m.isOwner
      case Admin =>
        HasAdminRole(m, roles) || HasManagerRole(m, roles) || HasOwnerRole(m, roles) || m.isOwner
      case Manager =>
        HasManagerRole(m, roles) || HasOwnerRole(m, roles) || m.isOwner
      case Owner =>
        HasOwnerRole(m, roles) || HasDeveloperRole(m, roles) || m.isOwner
      case Developer =>
        HasDeveloperRole(m, roles) || m.isOwner
  }

  // -----------------------------------------------------------------------
  // Properties of the permission check
  // -----------------------------------------------------------------------

  /** Every guild member passes EVERYONE, and the guild owner passes every
      level whatever roles are configured. */
  lemma EveryoneAndGuildOwner(m: Member, level: PermissionLevel, roles: RoleConfig)
    ensures HasPermission(Some(m), Everyone, roles)
    ensures m.isOwner ==> HasPermission(Some(m), level, roles)
  {
  }

  /** Down the MANAGER > ADMIN > MODERATOR chain the check is monotone. */
  lemma Monotone(member: Option<Member>, roles: RoleConfig)
    ensures HasPermission(member, Manager, roles) ==> HasPermission(member, Admin, roles)
    ensures HasPermission(member, Admin, roles) ==> HasPermission(member, Moderator, roles)
  {
  }

  /** Above MANAGER the order is not linear: OWNER also admits the developer
      role, which MANAGER does not, and the owner role does not pass
      DEVELOPER. */
  lemma NotLinearAtTheTop()
    ensures var roles := RoleConfig(None, None, None, Some("owner"), Some("dev"));
      var dev := Member(["dev"], false, false, false);
      var owner := Member(["owner"], false, false, false);
      HasPermission(Some(dev), Owner, roles) && !HasPermission(Some(dev), Manager, roles)
      && HasPermission(Some(owner), Manager, roles) && !HasPermission(Some(owner), Developer, roles)
  {
    var roles := RoleConfig(None, None, None, Some("owner"), Some("dev"));
    var dev := Member(["dev"], false, false, false);
    var owner := Member(["owner"], false, false, false);
    assert !IsBlank("dev") by { assert !IsTrimmable("dev"[0]); }
    assert !IsBlank("owner") by { assert !IsTrimmable("owner"[0]); }
    assert HoldsRole(dev, "dev") by { assert dev.roleIds[0] == "dev"; }
    assert HoldsRole(owner, "owner") by { assert owner.roleIds[0] == "owner"; }
  }

  /** With nothing configured, ADMIN and MODERATOR fall back to Discord's own
      permissions, while MANAGER and DEVELOPER admit only the guild owner. */
  lemma UnconfiguredFallbacks(m: Member)
    ensures var roles := RoleConfig(None, None, None, None, None);
      (HasPermission(Some(m), Admin, roles) <==> m.isOwner || m.administrator)
      && (HasPermission(Some(m), Moderator, roles) <==> m.isOwner || m.administrator || m.manageServer)
      && (HasPermission(Some(m), Manager, roles) <==> m.isOwner)
      && (HasPermission(Some(m), Owner, roles) <==> m.isOwner)
      && (HasPermission(Some(m), Developer, roles) <==> m.isOwner)
  {
  }

  // -----------------------------------------------------------------------
  // Registration and dispatch
  // -----------------------------------------------------------------------

  /** What one slash-command interaction leads to. */
  datatype Dispatch =
    | Ignored                                              // no such command: no reply at all
    | Denied(ephemeral: bool, required: PermissionLevel)   // deferred, then "Permission Denied"
    | Executed(ephemeral: bool, command: Command)          // deferred, then `execute` runs

  class CommandManager {
    var commands: map<string, Command>

    /** Starts from an empty map and registers `cs`, the fixed list that
        `registerCommands` builds. */
    constructor (cs: seq<Command>)
      ensures commands == Registered(map[], cs)
    {
      commands := map[];
      new;
      RegisterAll(this, cs);
    }

    /** Keyed by name; a later command of the same name replaces the earlier. */
    method RegisterCommand(command: Command)
      modifies this
      ensures commands == old(commands)[command.name := command]
      ensures command.name in commands && commands[command.name] == command
      ensures forall n | n in old(commands) && n != command.name :: n in commands && commands[n] == old(commands)[n]
    {
      commands := commands[command.name := command];
    }

    /** `onSlashCommandInteraction`, up to the call of `execute`. */
    function OnSlashCommand(commandName: string, member: Option<Member>, roles: RoleConfig): (d: Dispatch)
      reads this
      ensures commandName !in commands <==> d.Ignored?
      ensures d.Executed? ==>
        (d.command == commands[commandName] && HasPermission(member, d.command.requiredPermission, roles))
      ensures d.Denied? ==>
        (!HasPermission(member, commands[commandName].requiredPermission, roles)
         && d.required == commands[commandName].requiredPermission)
      ensures !d.Ignored? ==> d.ephemeral == commands[commandName].ephemeral
    {
      if commandName !in commands then Ignored
      else
        var command := commands[commandName];
        if !HasPermission(member, command.requiredPermission, roles)
        then Denied(command.ephemeral, command.requiredPermission)
        else Executed(command.ephemeral, command)
    }
  }

  /** The registry after registering `cs` in order into `m`. */
  function Registered(m: map<string, Command>, cs: seq<Command>): map<string, Command>
    decreases |cs|
  {
    if |cs| == 0 then m
    else
      var last := cs[|cs| - 1];
      Registered(m, cs[..|cs| - 1])[last.name := last]
  }

  /** The names in the registry are the old ones plus those registered. */
  lemma {:induction false} RegisteredKeys(m: map<string, Command>, cs: seq<Command>)
    ensures Registered(m, cs).Keys == m.Keys + set i | 0 <= i < |cs| :: cs[i].name
    decreases |cs|
  {
    if |cs| > 0 {
      var init := cs[..|cs| - 1];
      RegisteredKeys(m, init);
      var names := set i | 0 <= i < |cs| :: cs[i].name;
      var initNames := set i | 0 <= i < |init| :: init[i].name;
      assert names == initNames + {cs[|cs| - 1].name} by {
        forall n | n in names ensures n in initNames + {cs[|cs| - 1].name} {
          var i :| 0 <= i < |cs| && cs[i].name == n;
          if i < |init| { assert init[i] == cs[i]; }
        }
        forall n | n in initNames ensures n in names {
          var i :| 0 <= i < |init| && init[i].name == n;
          assert cs[i] == init[i];
        }
      }
    }
  }

  /** Each registered name maps to the last command registered under it. */
  lemma {:induction false} RegisteredLastWins(m: map<string, Command>, cs: seq<Command>, i: nat)
    requires i < |cs| && forall j | i < j < |cs| :: cs[j].name != cs[i].name
    ensures cs[i].name in Registered(m, cs) && Registered(m, cs)[cs[i].name] == cs[i]
    decreases |cs|
  {
    if i < |cs| - 1 {
      var init := cs[..|cs| - 1];
      assert init[i] == cs[i];
      RegisteredLastWins(m, init, i);
    }
  }

  /** A name no command in `cs` carries keeps its old entry, or its absence. */
  lemma {:induction false} RegisteredKeepsOthers(m: map<string, Command>, cs: seq<Command>, n: string)
    requires forall i | 0 <= i < |cs| :: cs[i].name != n
    ensures n in Registered(m, cs) <==> n in m
    ensures n in m ==> Registered(m, cs)[n] == m[n]
    decreases |cs|
  {
    if |cs| > 0 {
      RegisteredKeepsOthers(m, cs[..|cs| - 1], n);
    }
  }

  /** Registering a list of commands in order, as `registerCommands` does
      with its fixed list. */
  method RegisterAll(manager: CommandManager, cs: seq<Command>)
    modifies manager
    ensures manager.commands == Registered(old(manager.commands), cs)
  {
    for k := 0 to |cs|
      invariant manager.commands == Registered(old(manager.commands), cs[..k])
    {
      manager.RegisterCommand(cs[k]);
      assert cs[..k + 1][..k] == cs[..k];
    }
    assert cs[..|cs|] == cs;
  }
}
