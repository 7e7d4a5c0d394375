/** Configuration and the privilege rule: who counts as a moderator, and which
    interactions are admitted to the command handlers at all. */
module Privilege {

  import opened Wrappers
  import opened Platform

  /** The configuration the bot runs with. `moderatorRole` is `MODERATOR_ROLE_ID`
      (absent when the variable is unset); `botId` is the id of the logged-in bot user. */
  datatype Config = Config(
    mainServer: GuildId,
    syncServers: seq<GuildId>,
    moderatorRole: Option<RoleId>,
    botId: UserId)

  /** The servers every handler visits, in order: the main server, then the sync list. */
  function AllServers(cfg: Config): (servers: seq<GuildId>)
    ensures |servers| == 1 + |cfg.syncServers| && servers[0] == cfg.mainServer
    ensures servers[1..] == cfg.syncServers
    ensures forall id :: id in servers <==> id == cfg.mainServer || id in cfg.syncServers
  {
    [cfg.mainServer] + cfg.syncServers
  }

  /** JavaScript truthiness of `MODERATOR_ROLE_ID`: unset and the empty string both count as "no role". */
  predicate RoleConfigured(cfg: Config) {
    cfg.moderatorRole.Some? && cfg.moderatorRole.value != ""
  }

  /** `hasModeratorRole`: holding the configured role, or, with no role configured,
      the ModerateMembers permission. */
  predicate HasModeratorRole(cfg: Config, m: Member)
    ensures m.roles == {} && ModerateMembers !in m.permissions ==> !HasModeratorRole(cfg, m)
  {
    if !RoleConfigured(cfg) then ModerateMembers in m.permissions
    else cfg.moderatorRole.value in m.roles
  }

  datatype GateVerdict = NotConfiguredServer | NotModerator | Admitted

  /** The two checks `interactionCreate` makes before dispatching a command: the
      server must be the main server or a sync server; then the invoker must pass
      `hasModeratorRole`. */
  function Gate(cfg: Config, guild: GuildId, invoker: Member): (v: GateVerdict)
    ensures v == Admitted <==> guild in AllServers(cfg) && HasModeratorRole(cfg, invoker)
    ensures v == NotConfiguredServer <==> guild !in AllServers(cfg)
  {
    if guild !in cfg.syncServers && guild != cfg.mainServer then NotConfiguredServer
    else if !HasModeratorRole(cfg, invoker) then NotModerator
    else Admitted
  }

  /** With a role configured only the role matters; without one only the permission does. */
  lemma ModeratorRuleDependsOnOneThing(cfg: Config, m: Member, roles: set<RoleId>, perms: set<Permission>)
    ensures RoleConfigured(cfg) ==>
      HasModeratorRole(cfg, m) == HasModeratorRole(cfg, m.(permissions := perms))
    ensures !RoleConfigured(cfg) ==>
      HasModeratorRole(cfg, m) == HasModeratorRole(cfg, m.(roles := roles))
  {
  }

  /** An empty `MODERATOR_ROLE_ID` behaves exactly like an unset one. */
  lemma EmptyRoleMeansUnset(cfg: Config, m: Member)
    requires cfg.moderatorRole == Some("")
    ensures HasModeratorRole(cfg, m) == HasModeratorRole(cfg.(moderatorRole := None), m)
  {
  }
}
