/** The table of pending auto-unmute timers (`muteTimeouts`) and the timers
    themselves. A timer is abstracted to an id that stays live until it is
    cleared or until it fires; its callback remembers the key it was filed under.

    The code files a new timer under `<guild id>-<user id>` WITHOUT clearing the
    one already filed there, and a firing timer deletes its key whatever the key
    now maps to. Both behaviours are modelled as written. */
module Timers {

  import opened Platform

  type TimerId = nat

  /** The key `${guild.id}-${targetUser.id}`. */
  function TimerKey(guild: GuildId, user: UserId): string {
    guild + "-" + user
  }

  predicate NoDash(s: string) {
    forall i :: 0 <= i < |s| ==> s[i] != '-'
  }

  /** Keys of different (guild, user) pairs never collide when guild ids contain
      no `-`, as the platform's numeric ids do not. */
  lemma TimerKeyInjective(g1: GuildId, u1: UserId, g2: GuildId, u2: UserId)
    requires NoDash(g1) && NoDash(g2)
    requires TimerKey(g1, u1) == TimerKey(g2, u2)
    ensures g1 == g2 && u1 == u2
  {
    var k := TimerKey(g1, u1);
    assert k == TimerKey(g2, u2);
    assert k[|g1|] == '-' && k[|g2|] == '-';
    assert forall i :: 0 <= i < |g1| ==> k[i] == g1[i];
    assert forall i :: 0 <= i < |g2| ==> k[i] == g2[i];
    assert |g1| == |g2|;
    assert g1 == k[..|g1|] && g2 == k[..|g2|];
    assert u1 == k[|g1| + 1..] && u2 == k[|g2| + 1..];
  }

  /** `entries` is `muteTimeouts`; `live` holds each timer that has been scheduled
      and has neither fired nor been cleared, with the key its callback deletes;
      `next` is the id the next `setTimeout` returns. */
  datatype TimerTable = TimerTable(entries: map<string, TimerId>, live: map<TimerId, string>, next: TimerId)

  const EMPTY_TABLE := TimerTable(map[], map[], 0)

  /** Every id in use was handed out before `next`, so `next` is always fresh. */
  predicate ValidTable(t: TimerTable) {
    (forall k :: k in t.entries ==> t.entries[k] < t.next) &&
    (forall id :: id in t.live ==> id < t.next)
  }

  /** The live timers whose callbacks will delete `key` when they fire. */
  function LiveFor(t: TimerTable, key: string): set<TimerId> {
    set id | id in t.live && t.live[id] == key
  }

  /** A successful mute: `setTimeout` creates a new live timer, and
      `muteTimeouts.set(key, timer)` overwrites the entry for `key`. */
  function AfterSchedule(t: TimerTable, key: string): (r: TimerTable)
    ensures ValidTable(t) ==> ValidTable(r) && t.next !in t.live
    ensures key in r.entries && r.entries[key] in r.live && r.live[r.entries[key]] == key
    ensures r.entries[key] == t.next && r.live[t.next] == key
    ensures ValidTable(t) ==> forall id :: id in t.live ==> id in r.live && r.live[id] == t.live[id]
    ensures r.live.Keys == t.live.Keys + {t.next} && r.next == t.next + 1
    ensures forall k :: k != key ==> (k in r.entries <==> k in t.entries) && (k in t.entries ==> r.entries[k] == t.entries[k])
  {
    TimerTable(t.entries[key := t.next], t.live[t.next := key], t.next + 1)
  }

  /** A successful unmute: if `key` has an entry, its timer is cleared and the entry
      deleted; with no entry nothing happens. */
  function AfterCancel(t: TimerTable, key: string): (r: TimerTable)
    ensures ValidTable(t) ==> ValidTable(r)
    ensures key !in r.entries
    ensures key !in t.entries ==> r == t
    ensures key in t.entries ==> t.entries[key] !in r.live && r.entries == t.entries - {key}
    ensures r.next == t.next && r.live.Keys <= t.live.Keys
    ensures forall id :: id in t.live && (key !in t.entries || id != t.entries[key]) ==>
      id in r.live && r.live[id] == t.live[id]
    ensures forall k :: k != key ==> (k in r.entries <==> k in t.entries) && (k in t.entries ==> r.entries[k] == t.entries[k])
  {
    if key in t.entries then
      TimerTable(t.entries - {key}, t.live - {t.entries[key]}, t.next)
    else t
  }

  /** Timer `id` fires. The callback lifts the timeout; only if that succeeds
      (`lifted`) does it delete its key, whatever timer the key now maps to. */
  function AfterFire(t: TimerTable, id: TimerId, lifted: bool): (r: TimerTable)
    requires id in t.live
    ensures ValidTable(t) ==> ValidTable(r)
    ensures id !in r.live && r.next == t.next
    ensures lifted ==> t.live[id] !in r.entries
    ensures !lifted ==> r.entries == t.entries
    ensures r.live.Keys == t.live.Keys - {id}
    ensures forall other :: other in t.live && other != id ==> other in r.live && r.live[other] == t.live[other]
    ensures forall k :: k != t.live[id] ==> (k in r.entries <==> k in t.entries) && (k in t.entries ==> r.entries[k] == t.entries[k])
  {
    var key := t.live[id];
    TimerTable(if lifted then t.entries - {key} else t.entries, t.live - {id}, t.next)
  }

  /** Muting again while a timer for the same key is live leaves the earlier timer
      running beside the new one: the overwrite never clears it. */
  lemma ScheduleOverwritesWithoutClearing(t: TimerTable, key: string)
    requires ValidTable(t)
    requires key in t.entries && t.entries[key] in t.live && t.live[t.entries[key]] == key
    ensures var r := AfterSchedule(t, key);
      var earlier, newer := t.entries[key], r.entries[key];
      earlier != newer && {earlier, newer} <= LiveFor(r, key)
  {
  }

  /** From an empty table, two mutes of the same user in the same guild leave two
      live timers for that key. */
  lemma DoubleMuteTwoLiveTimers(key: string)
    ensures LiveFor(AfterSchedule(AfterSchedule(EMPTY_TABLE, key), key), key) == {0, 1}
  {
    var r := AfterSchedule(AfterSchedule(EMPTY_TABLE, key), key);
    assert r.live == map[0 := key, 1 := key];
    assert forall id :: id in LiveFor(r, key) ==> id == 0 || id == 1;
  }

  /** Unmuting right after a mute cancels the timer the mute created and removes the
      entry; every timer that was live before the mute stays live, an earlier timer
      for the same key included. */
  lemma CancelAfterSchedule(t: TimerTable, key: string)
    requires ValidTable(t)
    ensures AfterCancel(AfterSchedule(t, key), key).live == t.live
    ensures AfterCancel(AfterSchedule(t, key), key).entries == t.entries - {key}
  {
    var s := AfterSchedule(t, key);
    assert s.entries[key] == t.next;
    assert s.live - {t.next} == t.live;
  }

  /** With no earlier timer live for the key, mute then unmute leaves no timer that
      would fire for it. */
  lemma CancelAfterScheduleNoExpiry(t: TimerTable, key: string)
    requires ValidTable(t) && LiveFor(t, key) == {}
    ensures LiveFor(AfterCancel(AfterSchedule(t, key), key), key) == {}
  {
    CancelAfterSchedule(t, key);
  }

  /** The stale-timer sequence: mute twice, let the first timer fire. It deletes the
      key that now names the second timer, so a later unmute finds no entry and the
      second timer stays live, beyond the reach of any unmute. */
  lemma StaleFireOrphansNewerTimer(key: string)
    ensures var twice := AfterSchedule(AfterSchedule(EMPTY_TABLE, key), key);
      var fired := AfterFire(twice, 0, true);
      key !in fired.entries && 1 in fired.live &&
      AfterCancel(fired, key) == fired &&
      LiveFor(AfterCancel(fired, key), key) == {1}
  {
    var twice := AfterSchedule(AfterSchedule(EMPTY_TABLE, key), key);
    var fired := AfterFire(twice, 0, true);
    assert fired.live == map[1 := key];
    assert forall id :: id in LiveFor(fired, key) ==> id == 1;
  }

  /** The stale-timer hazard in general: whenever a key names a live timer and an
      older timer filed under the same key is still live, the older one's firing
      deletes the key. The newer timer then stays live, and an unmute, finding no
      entry, leaves it so. */
  lemma StaleFireOrphansCurrent(t: TimerTable, key: string, stale: TimerId)
    requires key in t.entries && t.entries[key] in t.live
    requires stale in t.live && t.live[stale] == key && stale != t.entries[key]
    ensures var current, fired := t.entries[key], AfterFire(t, stale, true);
      key !in fired.entries && current in fired.live && fired.live[current] == t.live[current] &&
      AfterCancel(fired, key) == fired && current in AfterCancel(fired, key).live
  {
  }

  /** The live `muteTimeouts` collection with its timers. */
  class MuteTimers {
    var entries: map<string, TimerId>
    var live: map<TimerId, string>
    var next: TimerId

    function State(): TimerTable
      reads this
    {
      TimerTable(entries, live, next)
    }

    predicate Valid()
      reads this
    {
      ValidTable(State())
    }

    constructor ()
      ensures Valid() && State() == EMPTY_TABLE
    {
      entries, live, next := map[], map[], 0;
    }

    /** `setTimeout(...)` then `muteTimeouts.set(key, timeout)`; returns the new timer. */
    method ScheduleAutoUnmute(key: string) returns (id: TimerId)
      requires Valid()
      modifies this
      ensures Valid() && id == old(next) && id !in old(live)
      ensures State() == AfterSchedule(old(State()), key)
    {
      id := next;
      live := live[id := key];
      entries := entries[key := id];
      next := next + 1;
    }

    /** `muteTimeouts.get(key)`, and when present `clearTimeout` and `delete`. */
    method CancelOnUnmute(key: string)
      requires Valid()
      modifies this
      ensures Valid() && State() == AfterCancel(old(State()), key)
    {
      if key in entries {
        var existing := entries[key];
        live := live - {existing};
        entries := entries - {key};
      }
    }

    /** A live timer fires; `lifted` says whether its `member.timeout(null)` succeeded,
        and only then is `muteTimeouts.delete(key)` reached. */
    method Fire(id: TimerId, lifted: bool)
      requires Valid() && id in live
      modifies this
      ensures Valid() && State() == AfterFire(old(State()), id, lifted)
    {
      var key := live[id];
      live := live - {id};
      if lifted {
        entries := entries - {key};
      }
    }
  }
}
