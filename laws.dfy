/** Properties that relate the handlers to one another and to the timer table:
    what a run promises per guild, the inverse pairs ban/unban and mute/unmute, and
    what a mute run and an unmute run do to `muteTimeouts`. */
module HandlerLaws {

  import opened Wrappers
  import opened Platform
  import opened Privilege
  import opened Timers
  import opened Moderation
  import opened Handlers

  // ---------------------------------------------------------------------------
  // Per guild
  // ---------------------------------------------------------------------------

  /** Unbanning right after a successful ban finds the ban and lifts it; the guild
      ends with the target neither a member nor banned. */
  lemma UnbanUndoesBan(cfg: Config, moderator: User, target: UserId, reason: string, g: Guild)
    requires BanGuild(cfg, moderator, target, reason, g).0.status == Banned
    requires FetchBans !in g.faults && RemoveBan !in g.faults
    ensures var banned := BanGuild(cfg, moderator, target, reason, g).1;
      UnbanGuild(target, banned).0.status == Unbanned &&
      UnbanGuild(target, banned).1 == g.(members := g.members - {target}, bans := g.bans - {target})
  {
  }

  /** Unmuting right after a successful mute finds the timeout and lifts it; the guild
      ends as it was, except that the member's timeout flag is now cleared (even when
      the member was already timed out before the mute). */
  lemma UnmuteUndoesMute(cfg: Config, target: UserId, g: Guild)
    requires MuteGuild(cfg, target, g).0.status == Muted
    requires LiftTimeout !in g.faults
    ensures var muted := MuteGuild(cfg, target, g).1;
      UnmuteGuild(target, muted).0.status == Unmuted &&
      UnmuteGuild(target, muted).1 == g.(members := g.members[target := g.members[target].(communicationDisabled := false)])
  {
  }

  /** Membership plays no part in an unban: only the ban list decides. */
  lemma UnbanIgnoresMembership(target: UserId, g: Guild, members: map<UserId, Member>)
    ensures UnbanGuild(target, g).0 == UnbanGuild(target, g.(members := members)).0
  {
  }

  // ---------------------------------------------------------------------------
  // Per run
  // ---------------------------------------------------------------------------

  /** In a ban run over servers listed once, a guild where the target is protected
      gets `target_is_moderator` and is left untouched, and the target is banned in a
      guild afterwards exactly when it was already or that guild's record says `banned`. */
  lemma BanRunPerGuild(cfg: Config, moderator: User, target: UserId, reason: string, w: World, servers: seq<GuildId>)
    requires NoDuplicates(servers)
    ensures var run := Run(BanStep(cfg, moderator, target, reason), w, servers);
      forall i :: 0 <= i < |servers| && servers[i] in w ==>
        var g, g' := w[servers[i]], run.1[servers[i]];
        (BotHolds(g, BanMembers) && target in g.members && HasModeratorRole(cfg, g.members[target]) ==>
          run.0[i].status == TargetIsModerator && g' == g) &&
        (target in g'.bans <==> target in g.bans || run.0[i].status == Banned) &&
        (run.0[i].status == Banned ==> target !in g'.members)
  {
    var step := BanStep(cfg, moderator, target, reason);
    RunDistinct(step, w, servers);
    forall i | 0 <= i < |servers| && servers[i] in w
      ensures step(w[servers[i]]) == BanGuild(cfg, moderator, target, reason, w[servers[i]])
    {
    }
  }

  /** No record of a mute run says `unmuted`: a mute run never clears a timer. */
  lemma MuteRunNeverUnmutes(cfg: Config, target: UserId, w: World, servers: seq<GuildId>)
    ensures forall i :: 0 <= i < |servers| ==> Run(MuteStep(cfg, target), w, servers).0[i].status != Unmuted
  {
    forall g ensures MuteStep(cfg, target)(g).0.status != Unmuted {}
    RunNeverReports(MuteStep(cfg, target), w, servers, Unmuted);
  }

  /** No record of an unmute run says `muted`: an unmute run never files a timer. */
  lemma UnmuteRunNeverMutes(target: UserId, w: World, servers: seq<GuildId>)
    ensures forall i :: 0 <= i < |servers| ==> Run(UnmuteStep(target), w, servers).0[i].status != Muted
  {
    forall g ensures UnmuteStep(target)(g).0.status != Muted {}
    RunNeverReports(UnmuteStep(target), w, servers, Muted);
  }

  /** The mute-run side of `muteTimeouts`: no timer is ever cleared (an earlier timer
      for a key being overwritten included), and every guild whose record says
      `muted` has an entry under its key afterwards. */
  lemma {:induction false} MuteRunOnlySchedules(t: TimerTable, servers: seq<GuildId>, results: seq<ActionResult>, target: UserId)
    requires |servers| == |results| && ValidTable(t)
    requires forall i :: 0 <= i < |results| ==> results[i].status != Unmuted
    ensures var r := TimersAfter(t, servers, results, target);
      (forall id :: id in t.live ==> id in r.live && r.live[id] == t.live[id]) &&
      t.entries.Keys <= r.entries.Keys &&
      (forall i :: 0 <= i < |results| && results[i].status == Muted ==> TimerKey(servers[i], target) in r.entries)
    decreases |servers|
  {
    if servers != [] {
      var n := |servers| - 1;
      MuteRunOnlySchedules(t, servers[..n], results[..n], target);
      var before := TimersAfter(t, servers[..n], results[..n], target);
      forall i | 0 <= i < n && results[i].status == Muted
        ensures TimerKey(servers[i], target) in TimersAfter(t, servers, results, target).entries
      {
        assert results[..n][i] == results[i] && servers[..n][i] == servers[i];
      }
    }
  }

  /** What `handleGlobalMute` does to `muteTimeouts`, by the table its loop leaves:
      every live timer stays live and every guild muted has an entry under its key. */
  lemma GlobalMuteTimers(cfg: Config, target: UserId, w: World, t: TimerTable)
    requires ValidTable(t)
    ensures var servers := AllServers(cfg);
      var run := Run(MuteStep(cfg, target), w, servers);
      var r := TimersAfter(t, servers, run.0, target);
      (forall id :: id in t.live ==> id in r.live && r.live[id] == t.live[id]) &&
      (forall i :: 0 <= i < |servers| && run.0[i].status == Muted ==> TimerKey(servers[i], target) in r.entries)
  {
    var servers := AllServers(cfg);
    MuteRunNeverUnmutes(cfg, target, w, servers);
    MuteRunOnlySchedules(t, servers, Run(MuteStep(cfg, target), w, servers).0, target);
  }

  /** The unmute-run side of `muteTimeouts`: nothing is filed, no timer is created,
      and every guild whose record says `unmuted` has no entry under its key afterwards. */
  lemma {:induction false} UnmuteRunOnlyCancels(t: TimerTable, servers: seq<GuildId>, results: seq<ActionResult>, target: UserId)
    requires |servers| == |results|
    requires forall i :: 0 <= i < |results| ==> results[i].status != Muted
    ensures var r := TimersAfter(t, servers, results, target);
      r.entries.Keys <= t.entries.Keys && r.live.Keys <= t.live.Keys && r.next == t.next &&
      (forall i :: 0 <= i < |results| && results[i].status == Unmuted ==> TimerKey(servers[i], target) !in r.entries)
    decreases |servers|
  {
    if servers != [] {
      var n := |servers| - 1;
      UnmuteRunOnlyCancels(t, servers[..n], results[..n], target);
      forall i | 0 <= i < n && results[i].status == Unmuted
        ensures TimerKey(servers[i], target) !in TimersAfter(t, servers, results, target).entries
      {
        assert results[..n][i] == results[i] && servers[..n][i] == servers[i];
      }
    }
  }

  /** A global unban right after a global ban, over servers listed once: every guild
      where the ban succeeded, and where listing and removing bans work, reports `unbanned`. */
  lemma GlobalUnbanUndoesGlobalBan(cfg: Config, moderator: User, target: UserId, reason: string, w: World)
    requires NoDuplicates(AllServers(cfg))
    ensures var servers := AllServers(cfg);
      var banned := Run(BanStep(cfg, moderator, target, reason), w, servers);
      var unbanned := Run(UnbanStep(target), banned.1, servers);
      forall i :: (0 <= i < |servers| && servers[i] in w && banned.0[i].status == Banned &&
                   FetchBans !in w[servers[i]].faults && RemoveBan !in w[servers[i]].faults) ==>
        unbanned.0[i].status == Unbanned
  {
    var servers := AllServers(cfg);
    var ban, unban := BanStep(cfg, moderator, target, reason), UnbanStep(target);
    var banned := Run(ban, w, servers);
    var unbanned := Run(unban, banned.1, servers);
    RunThenRun(ban, unban, w, servers);
    RunDistinct(ban, w, servers);
    forall i | (0 <= i < |servers| && servers[i] in w && banned.0[i].status == Banned &&
                FetchBans !in w[servers[i]].faults && RemoveBan !in w[servers[i]].faults)
      ensures unbanned.0[i].status == Unbanned
    {
      var g := w[servers[i]];
      assert ban(g) == BanGuild(cfg, moderator, target, reason, g);
      assert banned.0[i] == ban(g).0;
      UnbanUndoesBan(cfg, moderator, target, reason, g);
      assert unban(ban(g).1) == UnbanGuild(target, ban(g).1);
    }
  }

  /** A global unmute right after a global mute, over servers listed once: every guild
      where the mute succeeded and lifting works reports `unmuted`. */
  lemma GlobalUnmuteRestoresStatus(cfg: Config, target: UserId, w: World)
    requires NoDuplicates(AllServers(cfg))
    ensures var servers := AllServers(cfg);
      var muted := Run(MuteStep(cfg, target), w, servers);
      var unmuted := Run(UnmuteStep(target), muted.1, servers);
      forall i :: (0 <= i < |servers| && servers[i] in w && muted.0[i].status == Muted &&
                   LiftTimeout !in w[servers[i]].faults) ==>
        unmuted.0[i].status == Unmuted
  {
    var servers := AllServers(cfg);
    var mute, unmute := MuteStep(cfg, target), UnmuteStep(target);
    var muted := Run(mute, w, servers);
    var unmuted := Run(unmute, muted.1, servers);
    RunThenRun(mute, unmute, w, servers);
    RunDistinct(mute, w, servers);
    forall i | (0 <= i < |servers| && servers[i] in w && muted.0[i].status == Muted &&
                LiftTimeout !in w[servers[i]].faults)
      ensures unmuted.0[i].status == Unmuted
    {
      var g := w[servers[i]];
      assert mute(g) == MuteGuild(cfg, target, g);
      assert muted.0[i] == mute(g).0;
      UnmuteUndoesMute(cfg, target, g);
      assert unmute(mute(g).1) == UnmuteGuild(target, mute(g).1);
    }
  }

  /** The same, with `muteTimeouts`: the timer entry the mute filed for each such
      guild is gone after the unmute run. */
  lemma GlobalUnmuteUndoesGlobalMute(cfg: Config, target: UserId, w: World, t: TimerTable)
    requires NoDuplicates(AllServers(cfg)) && ValidTable(t)
    ensures var servers := AllServers(cfg);
      var muted := Run(MuteStep(cfg, target), w, servers);
      var unmuted := Run(UnmuteStep(target), muted.1, servers);
      var timers := TimersAfter(TimersAfter(t, servers, muted.0, target), servers, unmuted.0, target);
      forall i :: (0 <= i < |servers| && servers[i] in w && muted.0[i].status == Muted &&
                   LiftTimeout !in w[servers[i]].faults) ==>
        unmuted.0[i].status == Unmuted && TimerKey(servers[i], target) !in timers.entries
  {
    var servers := AllServers(cfg);
    var muted := Run(MuteStep(cfg, target), w, servers);
    var unmuted := Run(UnmuteStep(target), muted.1, servers);
    GlobalUnmuteRestoresStatus(cfg, target, w);
    UnmuteRunNeverMutes(target, muted.1, servers);
    UnmuteRunOnlyCancels(TimersAfter(t, servers, muted.0, target), servers, unmuted.0, target);
  }
}
