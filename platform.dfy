/** The host platform as the bot sees it, reduced to plain data: the guilds in the
    bot's cache, their members, ban lists, the bot's own permissions in each, and
    which platform calls fail there (and with what message). */
module Platform {

  type UserId = string
  type GuildId = string
  type RoleId = string

  /** The two permission flags the bot tests. A set of these is a member's
      effective permissions as the platform resolves them. */
  datatype Permission = BanMembers | ModerateMembers

  /** A fetched guild member: role ids, effective permissions, and whether a
      communication timeout is currently in force (`isCommunicationDisabled()`). */
  datatype Member = Member(roles: set<RoleId>, permissions: set<Permission>, communicationDisabled: bool)

  datatype User = User(id: UserId, tag: string)

  /** The platform calls inside the per-guild `try` blocks that can throw. The
      target-member fetch is not among them: its failure is caught on the spot
      and reads as "not a member". */
  datatype Call =
    | FetchBotMember   // guild.members.fetch(client.user.id)
    | BanMember        // guild.members.ban(...)
    | TimeoutMember    // member.timeout(durationMs, ...)
    | LiftTimeout      // member.timeout(null, ...)
    | FetchBans        // guild.bans.fetch()
    | RemoveBan        // guild.bans.remove(...)

  /** A guild the bot is in. `members` is what a member fetch returns (a user not
      in it is not a member, or the fetch failed); `bans` maps each banned user to
      the ban's audit reason; `faults` names the calls that throw here, each with
      the error's message. */
  datatype Guild = Guild(
    name: string,
    botPermissions: set<Permission>,
    members: map<UserId, Member>,
    bans: map<UserId, string>,
    faults: map<Call, string>)

  /** The guild cache: a server id the bot is not in has no entry. */
  type World = map<GuildId, Guild>
}
