/** What every global handler shares: the per-guild status record, and the
    sequential visit of `[MAIN_SERVER_ID, ...SYNC_SERVERS]` that pushes exactly one
    record per server id, threading the platform state from one guild to the next. */
module Moderation {

  import opened Wrappers
  import opened Platform

  /** The status strings the handlers push. */
  datatype Status =
    | Banned | Muted | Unmuted | Unbanned
    | NotInServer | NotBanned | NotMuted
    | NoPermission | BotNotInServer | TargetIsModerator | Error

  /** `{ server, status, error }`: the server's display name, the status, and the
      caught error's message for status `error`. */
  datatype ActionResult = ActionResult(server: string, status: Status, error: Option<string>)

  /** The record for a server id the bot's guild cache does not hold. */
  function MissingGuildResult(id: GuildId): (r: ActionResult)
    ensures r.status == BotNotInServer && r.error.None?
    ensures |r.server| == |id| + 10 && "Unknown (" <= r.server && r.server[9..] == id + ")"
  {
    ActionResult("Unknown (" + id + ")", BotNotInServer, None)
  }

  /** The record the `catch` block pushes when `call` throws in guild `g`. */
  function Failed(g: Guild, call: Call): (r: ActionResult)
    requires call in g.faults
    ensures r.server == g.name && r.status == Error && r.error == Some(g.faults[call])
  {
    ActionResult(g.name, Error, Some(g.faults[call]))
  }

  /** What a handler does with one guild the bot is in: the record it pushes and
      the guild's state afterwards. */
  type GuildStep = Guild -> (ActionResult, Guild)

  /** One iteration of a handler's loop: the cache lookup, then the guild's step. */
  function Visit(step: GuildStep, w: World, id: GuildId): (out: (ActionResult, World))
    ensures out.1.Keys == w.Keys
    ensures id !in w ==> out == (MissingGuildResult(id), w)
  {
    if id !in w then (MissingGuildResult(id), w)
    else
      var (r, g) := step(w[id]);
      (r, w[id := g])
  }

  /** The whole loop: one record per server id, in order, and the final state. */
  function Run(step: GuildStep, w: World, servers: seq<GuildId>): (out: (seq<ActionResult>, World))
    ensures |out.0| == |servers|
    ensures out.1.Keys == w.Keys
    decreases |servers|
  {
    if servers == [] then ([], w)
    else
      var n := |servers| - 1;
      var before := Run(step, w, servers[..n]);
      var (r, w') := Visit(step, before.1, servers[n]);
      (before.0 + [r], w')
  }

  /** One more guild: the loop's step from the records of `servers[..i]` to those of `servers[..i + 1]`. */
  lemma RunSnoc(step: GuildStep, w: World, servers: seq<GuildId>, i: nat)
    requires i < |servers|
    ensures var before := Run(step, w, servers[..i]);
      var visit := Visit(step, before.1, servers[i]);
      Run(step, w, servers[..i + 1]) == (before.0 + [visit.0], visit.1)
  {
    assert servers[..i + 1][..i] == servers[..i];
  }

  /** `RunSnoc` for a server the bot is in, with the step's outcome given. */
  lemma RunSnocPresent(step: GuildStep, w: World, servers: seq<GuildId>, i: nat,
                       results: seq<ActionResult>, cur: World, r: ActionResult, g: Guild)
    requires i < |servers| && (results, cur) == Run(step, w, servers[..i])
    requires servers[i] in cur && step(cur[servers[i]]) == (r, g)
    ensures Run(step, w, servers[..i + 1]) == (results + [r], cur[servers[i] := g])
  {
    RunSnoc(step, w, servers, i);
  }

  /** `RunSnoc` for a server the bot is not in. */
  lemma RunSnocMissing(step: GuildStep, w: World, servers: seq<GuildId>, i: nat,
                       results: seq<ActionResult>, cur: World)
    requires i < |servers| && (results, cur) == Run(step, w, servers[..i])
    requires servers[i] !in cur
    ensures Run(step, w, servers[..i + 1]) == (results + [MissingGuildResult(servers[i])], cur)
  {
    RunSnoc(step, w, servers, i);
  }

  predicate NoDuplicates(servers: seq<GuildId>) {
    forall i, j :: 0 <= i < j < |servers| ==> servers[i] != servers[j]
  }

  /** Two states that agree on every guild except `x`. */
  ghost predicate AgreeOff(w1: World, w2: World, x: GuildId) {
    forall id :: id != x ==> (id in w1 <==> id in w2) && (id in w1 ==> w1[id] == w2[id])
  }

  /** Visiting later guilds never changes the records already pushed. */
  lemma {:induction false} RunPrefix(step: GuildStep, w: World, servers: seq<GuildId>, i: nat)
    requires i <= |servers|
    ensures Run(step, w, servers).0[..i] == Run(step, w, servers[..i]).0
    decreases |servers|
  {
    if i < |servers| {
      var n := |servers| - 1;
      RunPrefix(step, w, servers[..n], i);
      assert servers[..n][..i] == servers[..i];
      assert Run(step, w, servers).0[..n] == Run(step, w, servers[..n]).0;
    } else {
      assert servers[..i] == servers;
    }
  }

  /** Record i is what guild i's own visit produced from the state the earlier
      guilds left: whatever happened at another guild reaches it only through that state. */
  lemma RunAt(step: GuildStep, w: World, servers: seq<GuildId>, i: nat)
    requires i < |servers|
    ensures Run(step, w, servers).0[i] == Visit(step, Run(step, w, servers[..i]).1, servers[i]).0
  {
    RunPrefix(step, w, servers, i + 1);
    RunSnoc(step, w, servers, i);
    var whole, upto := Run(step, w, servers).0, Run(step, w, servers[..i + 1]).0;
    assert whole[..i + 1] == upto;
    assert whole[i] == whole[..i + 1][i] == upto[i];
  }

  /** A status that no step produces and that is not the missing-guild status
      appears in no record of a run. */
  lemma RunNeverReports(step: GuildStep, w: World, servers: seq<GuildId>, s: Status)
    requires s != BotNotInServer
    requires forall g :: step(g).0.status != s
    ensures forall i :: 0 <= i < |servers| ==> Run(step, w, servers).0[i].status != s
  {
    forall i | 0 <= i < |servers|
      ensures Run(step, w, servers).0[i].status != s
    {
      RunAt(step, w, servers, i);
    }
  }

  /** A guild that is not in the list is left exactly as it was. */
  lemma {:induction false} RunFrame(step: GuildStep, w: World, servers: seq<GuildId>, id: GuildId)
    requires id !in servers
    ensures id in w ==> Run(step, w, servers).1[id] == w[id]
    decreases |servers|
  {
    if servers != [] {
      var n := |servers| - 1;
      assert id !in servers[..n];
      RunFrame(step, w, servers[..n], id);
    }
  }

  /** One visit keeps two states that differ only at `x` differing only there, and
      gives the same record in both unless it visits `x` itself. */
  lemma VisitIsolation(step: GuildStep, w1: World, w2: World, id: GuildId, x: GuildId)
    requires AgreeOff(w1, w2, x)
    ensures AgreeOff(Visit(step, w1, id).1, Visit(step, w2, id).1, x)
    ensures id != x ==> Visit(step, w1, id).0 == Visit(step, w2, id).0
  {
    if id != x && id in w1 {
      assert w1[id] == w2[id];
    }
  }

  /** Failure isolation: if two states differ only at guild `x` (say, a call throws
      there in one of them), every guild other than `x` gets the same record in both
      runs, and the two final states again differ only at `x`. */
  lemma {:induction false} RunIsolation(step: GuildStep, w1: World, w2: World, servers: seq<GuildId>, x: GuildId)
    requires AgreeOff(w1, w2, x)
    ensures AgreeOff(Run(step, w1, servers).1, Run(step, w2, servers).1, x)
    ensures forall i :: 0 <= i < |servers| && servers[i] != x ==>
      Run(step, w1, servers).0[i] == Run(step, w2, servers).0[i]
    decreases |servers|
  {
    if servers != [] {
      var n := |servers| - 1;
      RunIsolation(step, w1, w2, servers[..n], x);
      var b1, b2 := Run(step, w1, servers[..n]), Run(step, w2, servers[..n]);
      var id := servers[n];
      var v1, v2 := Visit(step, b1.1, id), Visit(step, b2.1, id);
      assert Run(step, w1, servers) == (b1.0 + [v1.0], v1.1);
      assert Run(step, w2, servers) == (b2.0 + [v2.0], v2.1);
      VisitIsolation(step, b1.1, b2.1, id, x);
      forall i | 0 <= i < |servers| && servers[i] != x
        ensures Run(step, w1, servers).0[i] == Run(step, w2, servers).0[i]
      {
        if i < n {
          assert servers[..n][i] == servers[i];
          assert (b1.0 + [v1.0])[i] == b1.0[i];
          assert (b2.0 + [v2.0])[i] == b2.0[i];
        }
      }
    }
  }

  /** With each server listed once, record i depends on guild i's initial state alone,
      and each listed guild ends in the state its own step produced. */
  lemma {:induction false} RunDistinct(step: GuildStep, w: World, servers: seq<GuildId>)
    requires NoDuplicates(servers)
    ensures forall i :: 0 <= i < |servers| ==> Run(step, w, servers).0[i] == Visit(step, w, servers[i]).0
    ensures forall i :: 0 <= i < |servers| && servers[i] in w ==>
      Run(step, w, servers).1[servers[i]] == step(w[servers[i]]).1
    decreases |servers|
  {
    if servers != [] {
      var n := |servers| - 1;
      var prefix := servers[..n];
      RunDistinct(step, w, prefix);
      var before := Run(step, w, prefix);
      var id := servers[n];
      assert id !in prefix;
      RunFrame(step, w, prefix, id);
      assert Visit(step, before.1, id) == (Visit(step, w, id).0, Visit(step, before.1, id).1);
      forall i | 0 <= i < n
        ensures Run(step, w, servers).0[i] == Visit(step, w, servers[i]).0
        ensures servers[i] in w ==> Run(step, w, servers).1[servers[i]] == step(w[servers[i]]).1
      {
        assert servers[i] == prefix[i] && servers[i] != id;
        assert Run(step, w, servers).0[i] == before.0[i];
      }
    }
  }

  /** Changing one guild (making a call throw there, say) changes no other guild's record. */
  lemma OneGuildChanged(step: GuildStep, w: World, servers: seq<GuildId>, x: GuildId, g: Guild)
    ensures forall i :: 0 <= i < |servers| && servers[i] != x ==>
      Run(step, w, servers).0[i] == Run(step, w[x := g], servers).0[i]
  {
    RunIsolation(step, w, w[x := g], servers, x);
  }

  /** Two runs over the same servers, each listed once: the second run's record for a
      guild is its step applied to what the first run's step left of that guild. */
  lemma RunThenRun(step1: GuildStep, step2: GuildStep, w: World, servers: seq<GuildId>)
    requires NoDuplicates(servers)
    ensures forall i :: 0 <= i < |servers| && servers[i] in w ==>
      Run(step2, Run(step1, w, servers).1, servers).0[i] == step2(step1(w[servers[i]]).1).0
  {
    var first := Run(step1, w, servers).1;
    RunDistinct(step1, w, servers);
    RunDistinct(step2, first, servers);
  }
}
