/** The four global handlers (ban, mute, unmute, unban) and the sync-status
    handler. Each global handler runs its pre-checks once, then visits the main
    server and the sync servers in order, walking a fixed decision cascade per
    guild; a call that throws is caught for that guild alone. */
module Handlers {

  import opened Wrappers
  import opened Platform
  import opened Privilege
  import opened Duration
  import opened Timers
  import opened Moderation

  /** The pre-check replies that end a handler before any guild is visited. */
  datatype Refusal = InvalidDuration | CannotTargetBot | CannotTargetSelf | CannotTargetModerator

  /** A handler's reply: a refusal, or the per-guild records it reports. */
  datatype Reply = Refused(why: Refusal) | Reported(results: seq<ActionResult>)

  /** `options.getString('reason') || 'No reason provided'`: a missing or empty
      reason becomes the default text. */
  function EffectiveReason(reason: Option<string>): (r: string)
    ensures r != ""
    ensures reason.Some? && reason.value != "" ==> r == reason.value
    ensures reason.None? || reason.value == "" ==> r == "No reason provided"
  {
    if reason.Some? && reason.value != "" then reason.value else "No reason provided"
  }

  /** The audit reason a global ban records on the platform's ban entry. */
  function BanAuditReason(moderator: User, reason: string): (audit: string)
    ensures |audit| >= |reason| && audit[|audit| - |reason|..] == reason
    ensures "Global ban by " <= audit
  {
    "Global ban by " + moderator.tag + " (" + moderator.id + "): " + reason
  }

  /** The bot's own member could be fetched in `g` and holds permission `p`. */
  predicate BotHolds(g: Guild, p: Permission) {
    FetchBotMember !in g.faults && p in g.botPermissions
  }

  /** The pre-check shared by ban and mute: the target is a member of the guild the
      command was issued in and passes `hasModeratorRole` there. A guild the bot
      cannot look up protects nobody (the lookup's error is swallowed). */
  predicate ProtectedIn(cfg: Config, w: World, origin: GuildId, target: UserId)
    ensures origin !in w ==> !ProtectedIn(cfg, w, origin, target)
    ensures ProtectedIn(cfg, w, origin, target) ==> target in w[origin].members
  {
    origin in w && target in w[origin].members && HasModeratorRole(cfg, w[origin].members[target])
  }

  // ---------------------------------------------------------------------------
  // The per-guild cascades, as specifications of the loop bodies
  // ---------------------------------------------------------------------------

  /** The ban cascade for a guild the bot is in. */
  function BanGuild(cfg: Config, moderator: User, target: UserId, reason: string, g: Guild): (out: (ActionResult, Guild))
    ensures out.0.server == g.name
    ensures out.0.status in {Banned, NoPermission, NotInServer, TargetIsModerator, Error}
    ensures out.0.status == NoPermission <==> FetchBotMember !in g.faults && BanMembers !in g.botPermissions
    ensures out.0.status == NotInServer <==> BotHolds(g, BanMembers) && target !in g.members
    ensures out.0.status == TargetIsModerator <==>
      BotHolds(g, BanMembers) && target in g.members && HasModeratorRole(cfg, g.members[target])
    ensures out.0.status == Banned <==>
      BotHolds(g, BanMembers) && target in g.members && !HasModeratorRole(cfg, g.members[target]) &&
      BanMember !in g.faults
    ensures out.0.error.Some? <==> out.0.status == Error
    ensures FetchBotMember in g.faults ==> out.0 == Failed(g, FetchBotMember)
    ensures out.0.status == Error && FetchBotMember !in g.faults ==> out.0 == Failed(g, BanMember)
    ensures out.0.status == Banned ==>
      out.1 == g.(members := g.members - {target}, bans := g.bans[target := BanAuditReason(moderator, reason)])
    ensures out.0.status != Banned ==> out.1 == g
  {
    if FetchBotMember in g.faults then (Failed(g, FetchBotMember), g)
    else if BanMembers !in g.botPermissions then (ActionResult(g.name, NoPermission, None), g)
    else if target in g.members then
      if HasModeratorRole(cfg, g.members[target]) then (ActionResult(g.name, TargetIsModerator, None), g)
      else if BanMember in g.faults then (Failed(g, BanMember), g)
      else
        var banned := g.(members := g.members - {target}, bans := g.bans[target := BanAuditReason(moderator, reason)]);
        (ActionResult(g.name, Banned, None), banned)
    else (ActionResult(g.name, NotInServer, None), g)
  }

  /** The mute cascade for a guild the bot is in. */
  function MuteGuild(cfg: Config, target: UserId, g: Guild): (out: (ActionResult, Guild))
    ensures out.0.server == g.name
    ensures out.0.status in {Muted, NoPermission, NotInServer, TargetIsModerator, Error}
    ensures out.0.status == NoPermission <==> FetchBotMember !in g.faults && ModerateMembers !in g.botPermissions
    ensures out.0.status == NotInServer <==> BotHolds(g, ModerateMembers) && target !in g.members
    ensures out.0.status == TargetIsModerator <==>
      BotHolds(g, ModerateMembers) && target in g.members && HasModeratorRole(cfg, g.members[target])
    ensures out.0.status == Muted <==>
      BotHolds(g, ModerateMembers) && target in g.members && !HasModeratorRole(cfg, g.members[target]) &&
      TimeoutMember !in g.faults
    ensures out.0.error.Some? <==> out.0.status == Error
    ensures FetchBotMember in g.faults ==> out.0 == Failed(g, FetchBotMember)
    ensures out.0.status == Error && FetchBotMember !in g.faults ==> out.0 == Failed(g, TimeoutMember)
    ensures out.0.status == Muted ==>
      out.1 == g.(members := g.members[target := g.members[target].(communicationDisabled := true)])
    ensures out.0.status != Muted ==> out.1 == g
  {
    if FetchBotMember in g.faults then (Failed(g, FetchBotMember), g)
    else if ModerateMembers !in g.botPermissions then (ActionResult(g.name, NoPermission, None), g)
    else if target in g.members then
      var member := g.members[target];
      if HasModeratorRole(cfg, member) then (ActionResult(g.name, TargetIsModerator, None), g)
      else if TimeoutMember in g.faults then (Failed(g, TimeoutMember), g)
      else
        var muted := g.(members := g.members[target := member.(communicationDisabled := true)]);
        (ActionResult(g.name, Muted, None), muted)
    else (ActionResult(g.name, NotInServer, None), g)
  }

  /** The unmute cascade for a guild the bot is in: no moderator test here. */
  function UnmuteGuild(target: UserId, g: Guild): (out: (ActionResult, Guild))
    ensures out.0.server == g.name
    ensures out.0.status in {Unmuted, NotMuted, NotInServer, NoPermission, Error}
    ensures out.0.status == NoPermission <==> FetchBotMember !in g.faults && ModerateMembers !in g.botPermissions
    ensures out.0.status == NotInServer <==> BotHolds(g, ModerateMembers) && target !in g.members
    ensures out.0.status == NotMuted <==>
      BotHolds(g, ModerateMembers) && target in g.members && !g.members[target].communicationDisabled
    ensures out.0.status == Unmuted <==>
      BotHolds(g, ModerateMembers) && target in g.members && g.members[target].communicationDisabled &&
      LiftTimeout !in g.faults
    ensures out.0.error.Some? <==> out.0.status == Error
    ensures FetchBotMember in g.faults ==> out.0 == Failed(g, FetchBotMember)
    ensures out.0.status == Error && FetchBotMember !in g.faults ==> out.0 == Failed(g, LiftTimeout)
    ensures out.0.status == Unmuted ==>
      out.1 == g.(members := g.members[target := g.members[target].(communicationDisabled := false)])
    ensures out.0.status != Unmuted ==> out.1 == g
  {
    if FetchBotMember in g.faults then (Failed(g, FetchBotMember), g)
    else if ModerateMembers !in g.botPermissions then (ActionResult(g.name, NoPermission, None), g)
    else if target in g.members && g.members[target].communicationDisabled then
      if LiftTimeout in g.faults then (Failed(g, LiftTimeout), g)
      else
        var unmuted := g.(members := g.members[target := g.members[target].(communicationDisabled := false)]);
        (ActionResult(g.name, Unmuted, None), unmuted)
    else if target in g.members then (ActionResult(g.name, NotMuted, None), g)
    else (ActionResult(g.name, NotInServer, None), g)
  }

  /** The unban cascade for a guild the bot is in: decided by the ban list alone. */
  function UnbanGuild(target: UserId, g: Guild): (out: (ActionResult, Guild))
    ensures out.0.server == g.name
    ensures out.0.status in {Unbanned, NotBanned, NoPermission, Error}
    ensures out.0.status == NoPermission <==> FetchBotMember !in g.faults && BanMembers !in g.botPermissions
    ensures out.0.status == NotBanned <==> BotHolds(g, BanMembers) && FetchBans !in g.faults && target !in g.bans
    ensures out.0.status == Unbanned <==>
      BotHolds(g, BanMembers) && FetchBans !in g.faults && target in g.bans && RemoveBan !in g.faults
    ensures out.0.error.Some? <==> out.0.status == Error
    ensures FetchBotMember in g.faults ==> out.0 == Failed(g, FetchBotMember)
    ensures BotHolds(g, BanMembers) && FetchBans in g.faults ==> out.0 == Failed(g, FetchBans)
    ensures BotHolds(g, BanMembers) && FetchBans !in g.faults && target in g.bans && RemoveBan in g.faults ==>
      out.0 == Failed(g, RemoveBan)
    ensures out.0.status == Unbanned ==> out.1 == g.(bans := g.bans - {target})
    ensures out.0.status != Unbanned ==> out.1 == g
  {
    if FetchBotMember in g.faults then (Failed(g, FetchBotMember), g)
    else if BanMembers !in g.botPermissions then (ActionResult(g.name, NoPermission, None), g)
    else if FetchBans in g.faults then (Failed(g, FetchBans), g)
    else if target in g.bans then
      if RemoveBan in g.faults then (Failed(g, RemoveBan), g)
      else (ActionResult(g.name, Unbanned, None), g.(bans := g.bans - {target}))
    else (ActionResult(g.name, NotBanned, None), g)
  }

  function BanStep(cfg: Config, moderator: User, target: UserId, reason: string): GuildStep {
    g => BanGuild(cfg, moderator, target, reason, g)
  }

  function MuteStep(cfg: Config, target: UserId): GuildStep {
    g => MuteGuild(cfg, target, g)
  }

  function UnmuteStep(target: UserId): GuildStep {
    g => UnmuteGuild(target, g)
  }

  function UnbanStep(target: UserId): GuildStep {
    g => UnbanGuild(target, g)
  }

  /** The timer-table effect of a run: each `muted` record files a new timer under
      its guild's key, each `unmuted` record cancels the key's entry. */
  function TimersAfter(t: TimerTable, servers: seq<GuildId>, results: seq<ActionResult>, target: UserId): (r: TimerTable)
    requires |servers| == |results|
    ensures ValidTable(t) ==> ValidTable(r)
    decreases |servers|
  {
    if servers == [] then t
    else
      var n := |servers| - 1;
      var before := TimersAfter(t, servers[..n], results[..n], target);
      match results[n].status
      case Muted => AfterSchedule(before, TimerKey(servers[n], target))
      case Unmuted => AfterCancel(before, TimerKey(servers[n], target))
      case _ => before
  }

  /** One more record: how the loop extends the timer effect of `servers[..i]`. */
  lemma TimersAfterSnoc(t: TimerTable, servers: seq<GuildId>, results: seq<ActionResult>, r: ActionResult, target: UserId, i: nat)
    requires i < |servers| && |results| == i
    ensures var before := TimersAfter(t, servers[..i], results, target);
      var key := TimerKey(servers[i], target);
      TimersAfter(t, servers[..i + 1], results + [r], target) ==
        if r.status == Muted then AfterSchedule(before, key)
        else if r.status == Unmuted then AfterCancel(before, key)
        else before
  {
    assert servers[..i + 1][..i] == servers[..i];
    assert (results + [r])[..i] == results;
  }

  // ---------------------------------------------------------------------------
  // The handlers
  // ---------------------------------------------------------------------------

  /** The body of `handleGlobalBan`'s `try` block for a guild the bot is in. */
  method BanInGuild(cfg: Config, moderator: User, target: UserId, reason: string, guild: Guild)
    returns (r: ActionResult, after: Guild)
    ensures (r, after) == BanGuild(cfg, moderator, target, reason, guild) == BanStep(cfg, moderator, target, reason)(guild)
  {
    if FetchBotMember in guild.faults {
      return Failed(guild, FetchBotMember), guild;
    }
    if BanMembers !in guild.botPermissions {
      return ActionResult(guild.name, NoPermission, None), guild;
    }
    if target !in guild.members {
      return ActionResult(guild.name, NotInServer, None), guild;
    }
    if HasModeratorRole(cfg, guild.members[target]) {
      return ActionResult(guild.name, TargetIsModerator, None), guild;
    }
    if BanMember in guild.faults {
      return Failed(guild, BanMember), guild;
    }
    var bans := guild.bans[target := BanAuditReason(moderator, reason)];
    return ActionResult(guild.name, Banned, None), guild.(members := guild.members - {target}, bans := bans);
  }

  /** `handleGlobalBan`. */
  method GlobalBan(cfg: Config, w: World, origin: GuildId, moderator: User, target: UserId, reason: Option<string>)
    returns (reply: Reply, after: World)
    ensures target == cfg.botId ==> reply == Refused(CannotTargetBot)
    ensures target != cfg.botId && target == moderator.id ==> reply == Refused(CannotTargetSelf)
    ensures target != cfg.botId && target != moderator.id && ProtectedIn(cfg, w, origin, target) ==>
      reply == Refused(CannotTargetModerator)
    ensures reply.Refused? ==> after == w
    ensures target != cfg.botId && target != moderator.id && !ProtectedIn(cfg, w, origin, target) ==>
      var run := Run(BanStep(cfg, moderator, target, EffectiveReason(reason)), w, AllServers(cfg));
      reply == Reported(run.0) && after == run.1
  {
    var why := EffectiveReason(reason);
    if target == cfg.botId {
      return Refused(CannotTargetBot), w;
    }
    if target == moderator.id {
      return Refused(CannotTargetSelf), w;
    }
    if origin in w && target in w[origin].members && HasModeratorRole(cfg, w[origin].members[target]) {
      return Refused(CannotTargetModerator), w;
    }

    var results: seq<ActionResult>;
    results, after := BanAcross(cfg, w, moderator, target, why);
    return Reported(results), after;
  }

  /** The loop of `handleGlobalBan`, over the main server and the sync servers. */
  method BanAcross(cfg: Config, w: World, moderator: User, target: UserId, why: string)
    returns (results: seq<ActionResult>, after: World)
    ensures (results, after) == Run(BanStep(cfg, moderator, target, why), w, AllServers(cfg))
  {
    var servers := AllServers(cfg);
    results := [];
    var cur := w;
    var step := BanStep(cfg, moderator, target, why);
    for i := 0 to |servers|
      invariant (results, cur) == Run(step, w, servers[..i])
    {
      var id := servers[i];
      if id !in cur {
        RunSnocMissing(step, w, servers, i, results, cur);
        results := results + [MissingGuildResult(id)];
        continue;
      }
      var r, guild := BanInGuild(cfg, moderator, target, why, cur[id]);
      RunSnocPresent(step, w, servers, i, results, cur, r, guild);
      results, cur := results + [r], cur[id := guild];
    }
    assert servers[..|servers|] == servers;
    after := cur;
  }

  /** The body of `handleGlobalMute`'s `try` block: a successful timeout also
      schedules the auto-unmute under the guild's key. */
  method MuteInGuild(cfg: Config, target: UserId, id: GuildId, guild: Guild, timers: MuteTimers)
    returns (r: ActionResult, after: Guild)
    requires timers.Valid()
    modifies timers
    ensures (r, after) == MuteGuild(cfg, target, guild)
    ensures timers.Valid()
    ensures r.status == Muted ==> timers.State() == AfterSchedule(old(timers.State()), TimerKey(id, target))
    ensures r.status != Muted ==> timers.State() == old(timers.State())
  {
    if FetchBotMember in guild.faults {
      return Failed(guild, FetchBotMember), guild;
    }
    if ModerateMembers !in guild.botPermissions {
      return ActionResult(guild.name, NoPermission, None), guild;
    }
    if target !in guild.members {
      return ActionResult(guild.name, NotInServer, None), guild;
    }
    var member := guild.members[target];
    if HasModeratorRole(cfg, member) {
      return ActionResult(guild.name, TargetIsModerator, None), guild;
    }
    if TimeoutMember in guild.faults {
      return Failed(guild, TimeoutMember), guild;
    }
    r, after := ActionResult(guild.name, Muted, None), guild.(members := guild.members[target := member.(communicationDisabled := true)]);
    var timer := timers.ScheduleAutoUnmute(TimerKey(id, target));
  }

  /** `handleGlobalMute`: the duration guard comes first, then the same pre-checks as ban. */
  method GlobalMute(cfg: Config, w: World, timers: MuteTimers, origin: GuildId, moderator: User, target: UserId, duration: string)
    returns (reply: Reply, after: World)
    requires timers.Valid()
    modifies timers
    ensures timers.Valid()
    ensures !MuteDurationAccepted(ParseDuration(duration)) ==> reply == Refused(InvalidDuration)
    ensures MuteDurationAccepted(ParseDuration(duration)) && target == cfg.botId ==> reply == Refused(CannotTargetBot)
    ensures MuteDurationAccepted(ParseDuration(duration)) && target != cfg.botId && target == moderator.id ==>
      reply == Refused(CannotTargetSelf)
    ensures (MuteDurationAccepted(ParseDuration(duration)) && target != cfg.botId && target != moderator.id &&
             ProtectedIn(cfg, w, origin, target)) ==> reply == Refused(CannotTargetModerator)
    ensures reply.Refused? ==> after == w && timers.State() == old(timers.State())
    ensures (MuteDurationAccepted(ParseDuration(duration)) && target != cfg.botId && target != moderator.id &&
             !ProtectedIn(cfg, w, origin, target)) ==>
      var run := Run(MuteStep(cfg, target), w, AllServers(cfg));
      reply == Reported(run.0) && after == run.1 &&
      timers.State() == TimersAfter(old(timers.State()), AllServers(cfg), run.0, target)
  {
    var durationMs := ParseDuration(duration);
    if !MuteDurationAccepted(durationMs) {
      return Refused(InvalidDuration), w;
    }
    if target == cfg.botId {
      return Refused(CannotTargetBot), w;
    }
    if target == moderator.id {
      return Refused(CannotTargetSelf), w;
    }
    if origin in w && target in w[origin].members && HasModeratorRole(cfg, w[origin].members[target]) {
      return Refused(CannotTargetModerator), w;
    }

    var results: seq<ActionResult>;
    results, after := MuteAcross(cfg, w, timers, target);
    return Reported(results), after;
  }

  /** The loop of `handleGlobalMute`, over the main server and the sync servers. */
  method MuteAcross(cfg: Config, w: World, timers: MuteTimers, target: UserId)
    returns (results: seq<ActionResult>, after: World)
    requires timers.Valid()
    modifies timers
    ensures timers.Valid()
    ensures (results, after) == Run(MuteStep(cfg, target), w, AllServers(cfg))
    ensures timers.State() == TimersAfter(old(timers.State()), AllServers(cfg), results, target)
  {
    var servers := AllServers(cfg);
    results := [];
    var cur := w;
    var step := MuteStep(cfg, target);
    ghost var t0 := timers.State();
    for i := 0 to |servers|
      invariant (results, cur) == Run(step, w, servers[..i])
      invariant timers.Valid()
      invariant timers.State() == TimersAfter(t0, servers[..i], results, target)
    {
      var id := servers[i];
      if id !in cur {
        RunSnocMissing(step, w, servers, i, results, cur);
        TimersAfterSnoc(t0, servers, results, MissingGuildResult(id), target, i);
        results := results + [MissingGuildResult(id)];
        continue;
      }
      ghost var expected := step(cur[id]);
      assert expected == MuteGuild(cfg, target, cur[id]);
      RunSnocPresent(step, w, servers, i, results, cur, expected.0, expected.1);
      var r, guild := MuteInGuild(cfg, target, id, cur[id], timers);
      TimersAfterSnoc(t0, servers, results, r, target, i);
      results, cur := results + [r], cur[id := guild];
    }
    assert servers[..|servers|] == servers;
    after := cur;
  }

  /** The body of `handleGlobalUnmute`'s `try` block: a successful lift also clears
      the pending auto-unmute filed under the guild's key, if any. */
  method UnmuteInGuild(target: UserId, id: GuildId, guild: Guild, timers: MuteTimers)
    returns (r: ActionResult, after: Guild)
    requires timers.Valid()
    modifies timers
    ensures (r, after) == UnmuteGuild(target, guild)
    ensures timers.Valid()
    ensures r.status == Unmuted ==> timers.State() == AfterCancel(old(timers.State()), TimerKey(id, target))
    ensures r.status != Unmuted ==> timers.State() == old(timers.State())
  {
    if FetchBotMember in guild.faults {
      return Failed(guild, FetchBotMember), guild;
    }
    if ModerateMembers !in guild.botPermissions {
      return ActionResult(guild.name, NoPermission, None), guild;
    }
    if target !in guild.members {
      return ActionResult(guild.name, NotInServer, None), guild;
    }
    var member := guild.members[target];
    if !member.communicationDisabled {
      return ActionResult(guild.name, NotMuted, None), guild;
    }
    if LiftTimeout in guild.faults {
      return Failed(guild, LiftTimeout), guild;
    }
    r, after := ActionResult(guild.name, Unmuted, None), guild.(members := guild.members[target := member.(communicationDisabled := false)]);
    timers.CancelOnUnmute(TimerKey(id, target));
  }

  /** `handleGlobalUnmute`: no pre-checks. */
  method GlobalUnmute(cfg: Config, w: World, timers: MuteTimers, target: UserId)
    returns (results: seq<ActionResult>, after: World)
    requires timers.Valid()
    modifies timers
    ensures timers.Valid()
    ensures (results, after) == Run(UnmuteStep(target), w, AllServers(cfg))
    ensures timers.State() == TimersAfter(old(timers.State()), AllServers(cfg), results, target)
  {
    var servers := AllServers(cfg);
    results := [];
    var cur := w;
    var step := UnmuteStep(target);
    ghost var t0 := timers.State();
    for i := 0 to |servers|
      invariant (results, cur) == Run(step, w, servers[..i])
      invariant timers.Valid()
      invariant timers.State() == TimersAfter(t0, servers[..i], results, target)
    {
      var id := servers[i];
      if id !in cur {
        RunSnocMissing(step, w, servers, i, results, cur);
        TimersAfterSnoc(t0, servers, results, MissingGuildResult(id), target, i);
        results := results + [MissingGuildResult(id)];
        continue;
      }
      ghost var expected := step(cur[id]);
      assert expected == UnmuteGuild(target, cur[id]);
      RunSnocPresent(step, w, servers, i, results, cur, expected.0, expected.1);
      var r, guild := UnmuteInGuild(target, id, cur[id], timers);
      TimersAfterSnoc(t0, servers, results, r, target, i);
      results, cur := results + [r], cur[id := guild];
    }
    assert servers[..|servers|] == servers;
    after := cur;
  }

  /** The body of `handleGlobalUnban`'s `try` block for a guild the bot is in. */
  method UnbanInGuild(target: UserId, guild: Guild) returns (r: ActionResult, after: Guild)
    ensures (r, after) == UnbanGuild(target, guild) == UnbanStep(target)(guild)
  {
    if FetchBotMember in guild.faults {
      return Failed(guild, FetchBotMember), guild;
    }
    if BanMembers !in guild.botPermissions {
      return ActionResult(guild.name, NoPermission, None), guild;
    }
    if FetchBans in guild.faults {
      return Failed(guild, FetchBans), guild;
    }
    if target !in guild.bans {
      return ActionResult(guild.name, NotBanned, None), guild;
    }
    if RemoveBan in guild.faults {
      return Failed(guild, RemoveBan), guild;
    }
    return ActionResult(guild.name, Unbanned, None), guild.(bans := guild.bans - {target});
  }

  /** `handleGlobalUnban`: no pre-checks; membership plays no part. */
  method GlobalUnban(cfg: Config, w: World, target: UserId) returns (results: seq<ActionResult>, after: World)
    ensures (results, after) == Run(UnbanStep(target), w, AllServers(cfg))
  {
    var servers := AllServers(cfg);
    results := [];
    var cur := w;
    var step := UnbanStep(target);
    for i := 0 to |servers|
      invariant (results, cur) == Run(step, w, servers[..i])
    {
      var id := servers[i];
      if id !in cur {
        RunSnocMissing(step, w, servers, i, results, cur);
        results := results + [MissingGuildResult(id)];
        continue;
      }
      var r, guild := UnbanInGuild(target, cur[id]);
      RunSnocPresent(step, w, servers, i, results, cur, r, guild);
      results, cur := results + [r], cur[id := guild];
    }
    assert servers[..|servers|] == servers;
    after := cur;
  }

  /** One field of the sync-status report. */
  datatype StatusRow = Connected(name: string, canBan: bool, canMute: bool) | NotConnected(serverId: GuildId)

  predicate BotFetchFails(w: World, id: GuildId) {
    id in w && FetchBotMember in w[id].faults
  }

  function StatusRowFor(w: World, id: GuildId): StatusRow {
    if id in w then
      Connected(w[id].name, BanMembers in w[id].botPermissions, ModerateMembers in w[id].botPermissions)
    else NotConnected(id)
  }

  /** `handleSyncStatus`: one row per server, read-only. Its loop has no per-guild
      `try`, so one failing bot-member fetch aborts the whole report (`None`). */
  method SyncStatus(cfg: Config, w: World) returns (rows: Option<seq<StatusRow>>)
    ensures rows.None? <==> exists i :: 0 <= i < |AllServers(cfg)| && BotFetchFails(w, AllServers(cfg)[i])
    ensures rows.Some? ==> |rows.value| == |AllServers(cfg)|
    ensures rows.Some? ==>
      forall i :: 0 <= i < |rows.value| ==> rows.value[i] == StatusRowFor(w, AllServers(cfg)[i])
  {
    var servers := AllServers(cfg);
    var fields: seq<StatusRow> := [];
    for i := 0 to |servers|
      invariant |fields| == i
      invariant forall j :: 0 <= j < i ==> !BotFetchFails(w, servers[j]) && fields[j] == StatusRowFor(w, servers[j])
    {
      var id := servers[i];
      if id in w {
        var guild := w[id];
        if FetchBotMember in guild.faults {
          return None;
        }
        fields := fields + [Connected(guild.name, BanMembers in guild.botPermissions, ModerateMembers in guild.botPermissions)];
      } else {
        fields := fields + [NotConnected(id)];
      }
    }
    return Some(fields);
  }
}
