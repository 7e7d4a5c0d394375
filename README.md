# guildban-bot: a Dafny model of the global moderation core

The bot links a main Discord server and a list of sync servers. A moderator issues
one slash command; the bot then bans, times out ("mutes"), lifts a timeout or unbans
the target in every linked server. It reports one status line per server. This project
models and proves the parts of `bot.js` that make those decisions:

- **Duration parsing** (`duration.dfy`, module `Duration`). A token must match
  `^(\d+)([smhd])$` exactly. The value is the number times the unit in milliseconds;
  anything else is `null`. The mute guard `!durationMs` refuses both `null` and zero.
- **Privilege** (`privilege.dfy`, module `Privilege`). This covers `hasModeratorRole`
  and the two checks `interactionCreate` makes before any command runs. A
  `MODERATOR_ROLE_ID` that is unset or empty means the ModerateMembers permission is
  checked instead of the role.
- **The per-server loop** (`moderation.dfy`, module `Moderation`). The visit of
  `[MAIN_SERVER_ID, ...SYNC_SERVERS]` is modelled as a fold `Run` over a per-guild
  step. It pushes exactly one record per server id and threads the platform state
  from guild to guild. Its lemmas prove order, frame and failure isolation.
- **The four global handlers and sync status** (`handlers.dfy`, module `Handlers`).
  Each handler is an imperative method with the source's pre-checks and its `for`
  loop. The body of each guild's `try` block is a method of its own. Every loop is
  proved equal to `Run` over a pure per-guild cascade (`BanGuild`, `MuteGuild`,
  `UnmuteGuild`, `UnbanGuild`), whose contracts state each status's exact condition.
- **The mute timer table** (`timers.dfy`, module `Timers`). `muteTimeouts` and its
  `setTimeout` timers are a class over a map from key to timer id and a map of live
  timers. A pure `TimerTable` specifies each transition.
- **Cross-handler laws** (`laws.dfy`, module `HandlerLaws`). Unban undoes ban and
  unmute undoes mute, per guild and per run. A mute run only files timers and an
  unmute run only clears them.
- **The results field of the action embed** (`reporting.dfy`, module `Reporting`).
  This is the status label table, one line per record, the newline join and the
  `No results` fallback.

The platform is plain data (`platform.dfy`). It holds:

- the guild cache as a map from server id to guild;
- per guild, the members a member fetch would return, the ban list and the bot's permissions;
- per guild, a `faults` map naming which platform calls throw there, each with its error message.

A call that throws makes the handler push `error` with that message for that guild
alone. `Moderation.Failed` builds that record, and the cascade contracts name it in
their `out.0 == Failed(g, call)` clauses. The target-member fetch is not among the calls that can throw: the code's
`.catch(() => null)` turns its failure into "not a member", which the `members` map
already expresses.

The mute timers are modelled as the code behaves, not as a design would want:

- `muteTimeouts.set` overwrites the entry for a key without clearing the timer already
  filed there;
- a timer that fires deletes its key even when the key now names a newer timer.

One might expect a re-mute to replace the old timer, keeping at most one timer per
key. The code does not do that, and the model follows the code:
`ScheduleOverwritesWithoutClearing`, `DoubleMuteTwoLiveTimers`, `StaleFireOrphansNewerTimer`
and `StaleFireOrphansCurrent` prove the resulting behaviour.

## Model

| member | source | states |
|---|---|---|
| `Duration.ParseDuration` | bot.js:564-579 | a token shorter than two characters is `null`; an accepted value is a whole number of seconds, since every unit is a multiple of 1000 ms |
| `Duration.ParseAccepts` | bot.js:564-579 | every non-empty digit string followed by one of `s m h d` parses, to its decimal value times the unit's milliseconds |
| `Duration.ParseOnlyPattern` | bot.js:572-578 | every token that parses is exactly digits followed by one unit letter, and its value is that digit value times the unit |
| `Duration.ParseRejectsForeignChar` | bot.js:572-573 | a non-digit anywhere before the last position, or a last character that is no unit letter, makes the result `null` |
| `Duration.FormatRoundTrip` | bot.js:564-579 | parsing the decimal spelling of n followed by a unit gives n times that unit (parse inverts format) |
| `Duration.LeadingZeroIgnored` | bot.js:575 | a leading zero does not change the value of an accepted token (`parseInt` of the digit group) |
| `Duration.MuteGuardExact` | bot.js:282-285 | the mute guard accepts a token exactly when it parses and its amount is non-zero |
| `Duration.AcceptedExamples` | bot.js:564-579 | `1h`, `30m`, `1d` and `45s` give 3600000, 1800000, 86400000 and 45000 ms; `0s` parses to 0 and the guard refuses it |
| `Duration.RejectedExamples` | bot.js:572-573 | `10x`, `-5m`, `1.5h`, `1H`, `h` and the empty string are all `null` |
| `Duration.DecimalString` | bot.js:575 | the canonical spelling of n is a non-empty digit string whose decimal value is n |
| `Privilege.AllServers` | bot.js:224 | the visit list starts with the main server and continues with the sync list in order; a server id is in it exactly when it is the main server or a sync server, the same test the command gate makes at bot.js:142 |
| `Privilege.Gate` | bot.js:142-155 | an interaction is admitted exactly when its server is the main server or a sync server and its invoker passes the moderator rule; it is refused as "not configured" exactly when the server is neither |
| `Privilege.HasModeratorRole` | bot.js:187-194 | a member with no roles and without the ModerateMembers permission is never a moderator, whether or not a role is configured |
| `Privilege.ModeratorRuleDependsOnOneThing` | bot.js:187-194 | with a role configured only the member's roles decide; without one only its ModerateMembers permission does |
| `Privilege.EmptyRoleMeansUnset` | bot.js:189 | an empty `MODERATOR_ROLE_ID` behaves exactly like an unset one |
| `Timers.TimerKeyInjective` | bot.js:338 | `guild-user` keys of different pairs never collide when guild ids contain no `-` |
| `Timers.AfterSchedule` | bot.js:338-354 | a successful mute makes its key name the newly created timer, whose callback deletes that key, and keeps every timer that was live, the one it overwrote included; the live set grows by exactly the new id and every other key's entry is unchanged |
| `Timers.AfterCancel` | bot.js:404-410 | a successful unmute removes the key's entry and cancels the timer it named; with no entry the table is unchanged; every other live timer and every other key's entry is kept, and no timer is created |
| `Timers.AfterFire` | bot.js:339-352 | a firing timer stops being live; only if lifting the timeout succeeded is its key deleted, and then whatever timer it named; every other live timer and every other key's entry is kept |
| `Timers.ScheduleOverwritesWithoutClearing` | bot.js:338-354 | muting again while the key's timer is live leaves two distinct live timers for that key |
| `Timers.DoubleMuteTwoLiveTimers` | bot.js:338-354 | from an empty table, two mutes of the same pair leave exactly timers 0 and 1 live for the key |
| `Timers.CancelAfterSchedule` | bot.js:404-410 | unmute right after mute restores the live set and drops the key; an earlier timer for the key stays live |
| `Timers.CancelAfterScheduleNoExpiry` | bot.js:404-410 | with no earlier timer for the key, mute then unmute leaves no timer that would fire for it |
| `Timers.StaleFireOrphansNewerTimer` | bot.js:339-354 | after two mutes, the first timer's firing deletes the key, so a later unmute finds no entry and the second timer stays live |
| `Timers.StaleFireOrphansCurrent` | bot.js:339-354 | for any table where a key names a live timer and an older timer for the same key is still live: the older one firing deletes the key, the newer timer stays live, and a later unmute's cancel then finds nothing and leaves it live |
| `Timers.MuteTimers.constructor` | bot.js:28 | the collection starts empty |
| `Timers.MuteTimers.ScheduleAutoUnmute` | bot.js:338-354 | `setTimeout` then `muteTimeouts.set`: the new state is `AfterSchedule` of the old, and the returned timer is fresh |
| `Timers.MuteTimers.CancelOnUnmute` | bot.js:405-410 | `get`, then `clearTimeout` and `delete` when present: the new state is `AfterCancel` of the old |
| `Timers.MuteTimers.Fire` | bot.js:339-352 | the callback: the new state is `AfterFire` of the old |
| `Moderation.MissingGuildResult` | bot.js:229 | the record of an uncached server id says `bot_not_in_server` with no error, under the name `Unknown (` id `)`, closing parenthesis included |
| `Moderation.Visit` | bot.js:227-231 | a visit keeps the set of cached guilds; an uncached server id gets the missing-guild record and leaves the state unchanged |
| `Moderation.Run` | bot.js:226-262 | the loop pushes exactly one record per server id and keeps the set of cached guilds |
| `Moderation.RunSnoc` | bot.js:226-262 | one more iteration appends the record of the next server's visit from the state the earlier ones left |
| `Moderation.RunSnocPresent` | bot.js:226-262 | one more iteration over a cached guild appends that guild's record and stores its new state |
| `Moderation.RunSnocMissing` | bot.js:228-231 | one more iteration over an uncached server id appends the missing-guild record and changes nothing |
| `Moderation.RunPrefix` | bot.js:226-262 | later iterations never change records already pushed |
| `Moderation.RunAt` | bot.js:226-262 | record i is what server i's own visit produced from the state before it |
| `Moderation.RunNeverReports` | bot.js:226-262 | a status that no step produces, other than `bot_not_in_server`, appears in no record of the run |
| `Moderation.RunFrame` | bot.js:226-262 | a guild not in the server list is left exactly as it was |
| `Moderation.VisitIsolation` | bot.js:233-261 | one visit keeps two states that differ at one guild differing only there, and gives the same record unless it visits that guild |
| `Moderation.RunIsolation` | bot.js:233-261 | a per-guild `try`/`catch`: if two states differ only at one guild, every other server gets the same record and the states still differ only there |
| `Moderation.OneGuildChanged` | bot.js:259-261 | making a call throw in one guild changes no other server's record |
| `Moderation.RunDistinct` | bot.js:224-262 | with each server listed once, record i depends on guild i's initial state alone and each guild ends as its own step left it |
| `Moderation.RunThenRun` | bot.js:226-262 | two runs over servers listed once: the second run's record for a guild is its step applied to what the first left of that guild |
| `Handlers.EffectiveReason` | bot.js:201 | a missing or empty reason becomes `No reason provided`; any other reason is kept; the result is never empty |
| `Handlers.BanAuditReason` | bot.js:252 | the ban's audit reason begins with `Global ban by ` and ends with the reason |
| `Handlers.ProtectedIn` | bot.js:214-221 | only a member of the issuing server, and only when that server is cached, can be protected |
| `Handlers.BanGuild` | bot.js:233-261 | for each status, the exact condition it is pushed under: the bot member fetch failing, BanMembers missing, target absent, target moderator, ban throwing, banned; a ban removes the member and records the audit reason, every other outcome changes nothing |
| `Handlers.MuteGuild` | bot.js:316-361 | the same for mute with ModerateMembers and the timeout call; a mute sets the member's timeout flag, every other outcome changes nothing |
| `Handlers.UnmuteGuild` | bot.js:389-419 | the exact condition of unmuted, not muted, not in server, no permission and error; no moderator test; only a lift changes the guild |
| `Handlers.UnbanGuild` | bot.js:447-468 | decided by the ban list alone: unbanned exactly when the bot holds BanMembers, the ban list loads, the target is on it and removal works; a failing bot-member fetch, ban-list fetch or ban removal yields `error` with that call's message |
| `Handlers.TimersAfter` | bot.js:337-354 | the timer effect of a run keeps the table well formed |
| `Handlers.TimersAfterSnoc` | bot.js:337-354 | one more record extends the timer effect by a schedule for `muted`, a cancel for `unmuted`, and nothing otherwise |
| `Handlers.BanInGuild` | bot.js:233-261 | the ban `try` body computes exactly `BanGuild` |
| `Handlers.GlobalBan` | bot.js:197-262 | the bot, the moderator themself and a moderator of the issuing server are refused with the state unchanged; otherwise the reply is the records of `Run` over all servers, with the ban step given the reason after a missing or empty one is replaced by the default, and the state is `Run`'s final state |
| `Handlers.BanAcross` | bot.js:227-262 | the ban loop yields `Run`'s records and state for the ban step with the reason it is given |
| `Handlers.MuteInGuild` | bot.js:316-361 | the mute `try` body computes exactly `MuteGuild` and schedules an auto-unmute exactly when its record is `muted` |
| `Handlers.GlobalMute` | bot.js:273-362 | the duration guard comes first; then the ban pre-checks; otherwise the records and state of `Run`, and the timer table advanced by `TimersAfter` |
| `Handlers.MuteAcross` | bot.js:306-362 | the mute loop yields `Run`'s records and state and advances the timer table by `TimersAfter` |
| `Handlers.UnmuteInGuild` | bot.js:389-419 | the unmute `try` body computes exactly `UnmuteGuild` and cancels the key's timer exactly when its record is `unmuted` |
| `Handlers.GlobalUnmute` | bot.js:373-420 | no pre-checks; the records and state of `Run` with the unmute step, and the timer table advanced by `TimersAfter` |
| `Handlers.UnbanInGuild` | bot.js:447-468 | the unban `try` body computes exactly `UnbanGuild` |
| `Handlers.GlobalUnban` | bot.js:431-469 | no pre-checks; the records and state of `Run` with the unban step |
| `Handlers.SyncStatus` | bot.js:480-515 | one row per server in order, connected with the bot's two permissions or not connected; one failing bot-member fetch aborts the report, exactly when some listed cached guild has one |
| `HandlerLaws.UnbanUndoesBan` | bot.js:251-254 | an unban right after a successful ban finds the ban and removes it, leaving the target neither member nor banned |
| `HandlerLaws.UnmuteUndoesMute` | bot.js:400-402 | an unmute right after a successful mute finds the timeout and lifts it |
| `HandlerLaws.UnbanIgnoresMembership` | bot.js:455-464 | guild membership plays no part in an unban's record |
| `HandlerLaws.BanRunPerGuild` | bot.js:241-257 | with servers listed once, a protected target gets `target_is_moderator` with the guild untouched, and the target ends banned exactly where it was already or its record says `banned` |
| `HandlerLaws.MuteRunNeverUnmutes` | bot.js:309-362 | no record of a mute run says `unmuted` |
| `HandlerLaws.UnmuteRunNeverMutes` | bot.js:382-420 | no record of an unmute run says `muted` |
| `HandlerLaws.MuteRunOnlySchedules` | bot.js:337-354 | a run without `unmuted` records clears no timer and keeps every key; every muted guild has an entry afterwards |
| `HandlerLaws.GlobalMuteTimers` | bot.js:337-354 | the global mute keeps every live timer live and files an entry for every guild it muted |
| `HandlerLaws.UnmuteRunOnlyCancels` | bot.js:404-410 | a run without `muted` records files nothing and creates no timer; every unmuted guild has no entry afterwards |
| `HandlerLaws.GlobalUnbanUndoesGlobalBan` | bot.js:431-469 | over servers listed once, a global unban after a global ban reports `unbanned` in every guild where the ban succeeded and the ban list works |
| `HandlerLaws.GlobalUnmuteRestoresStatus` | bot.js:373-420 | over servers listed once, a global unmute after a global mute reports `unmuted` in every guild where the mute succeeded and lifting works |
| `HandlerLaws.GlobalUnmuteUndoesGlobalMute` | bot.js:373-420 | over servers listed once, a global unmute after a global mute reports `unmuted` in every guild where the mute succeeded and lifting works, and leaves no timer entry for it |
| `Reporting.StatusLabel` | bot.js:543-556 | the label is never empty and holds no line break, and it is `❓ Unknown` exactly for a status string outside the table |
| `Reporting.ResultLine` | bot.js:556 | a record's line opens with its status label, a dash and its server name |
| `Reporting.Join` | bot.js:557 | joining is empty for no lines; otherwise the text opens with the first line |
| `Reporting.ResultsText` | bot.js:542-557 | the results text is empty exactly when there are no records, and otherwise opens with the first record's line, so with its label |
| `Reporting.ResultsField` | bot.js:559 | the field value is never empty: `No results` for no records, the results text otherwise |
| `Reporting.LabelsIdentifyStatus` | bot.js:543-555 | every status a handler pushes has its own label: none is `Unknown`, no two share one |
| `Reporting.NoResultsIffEmpty` | bot.js:559 | the field reads `No results` exactly when there are no records |
| `Reporting.JoinAppend` | bot.js:557 | joining two non-empty runs of lines gives the two texts with a newline between |
| `Reporting.ResultsTextAppend` | bot.js:542-557 | the results text of two non-empty runs of records is their two texts with a newline between |
| `Reporting.ErrorReadBack` | bot.js:556 | for a server name without a line break, the line breaks exactly when the error is present and non-empty; the first break then comes right after label and server name, and the error is everything after the indent that follows it |
| `Reporting.FailedLineShowsMessage` | bot.js:259-260 | the line of a record for a call that threw opens with `⚠️ Error - ` and the guild name; for a guild name without a line break it breaks exactly when the call's message is non-empty, and the message is then read back after the indent |

## Left out

- Client setup, login, command registration, config loading and the splitting of `SYNC_SERVERS` are not modelled. `Config` takes the server list as given.
- The platform calls (REST fetches, ban, timeout, ban removal) become reads and writes of the `World` value. Which call throws in which guild, and with what message, is an input (`faults`).
- Replies, deferred replies, `logToModlog` and the modlog channel are not modelled. A handler's reply is its refusal or its list of records.
- Of the action embed only the results field is modelled: no colour, title, description, moderator and reason fields, duration field or timestamp.
- The embed builder's limit of 1024 characters per field value is not modelled. In the code a longer results text or reason makes `addFields` throw after the loop has already acted in every guild; the deferred reply and the modlog entry are then never sent. In the model the handler's records always reach the caller. Likewise the status embed accepts at most 25 fields: with more than 25 servers `statusEmbed.addFields(statusFields)` throws, while `Handlers.SyncStatus` still returns its rows.
- The top-level command switch and its `catch` are not modelled. Neither are non-command interactions and interactions without a guild (direct messages). For `handleSyncStatus` the modelled effect of a throw is an aborted report (`None`).
- `Handlers.UnbanGuild`: the model reads the guild's complete ban list. In the code `guild.bans.fetch()` without options makes one request, which returns at most the first 1000 bans, so in a guild with more bans a banned target can be reported `not_banned`. `HandlerLaws.UnbanUndoesBan` and `HandlerLaws.GlobalUnbanUndoesGlobalBan` hold only for a complete list.
- `Moderation.Run`: for a server listed twice (the main server also in `SYNC_SERVERS`), the model's second visit sees the first visit's effect at once. In the code the second visit's member fetch may be answered from the platform library's member cache, which a ban or a lifted timeout does not update. The code can then push `banned` or `unmuted` twice where the model pushes `not_in_server` or `not_muted`. The lemmas over servers listed once (`RunDistinct` and the laws built on it) are not affected.
- Each handler runs to completion without interruption. In the code a timer's callback or another command's handler can run at any `await` inside the per-server loop and change `muteTimeouts` or the guilds halfway through it; that interleaving is not modelled, and the loop contracts and run lemmas assume it does not happen.
- Real time is not modelled. A timer is an id that stays live until cleared or fired, and firing is the method `Fire`. Node's clamping of delays above 2^31-1 ms is left out.
- `Timers.MuteTimers.Fire`: whether lifting the timeout succeeds is an input (`lifted`). Its effect on the guild and the auto-unmute log entry are not modelled.
- `Duration.ParseDuration`: amounts are unbounded naturals. The floating-point precision lost on amounts or products above 2^53 (`parseInt` and the product `amount * units[unit]` are floats) is not modelled.
- `Handlers.GlobalMute`: the timeout's length and expiry are not part of the member state. Only "timeout in force" is recorded, and the reason option is not an input.
- The audit reason strings of mute, unmute and unban are not recorded. The ban's audit reason is.
- `Reporting.StatusLabel`: status strings that name JavaScript object-prototype properties (such as `constructor`) would not fall back to `Unknown` in the code. The model treats every string outside the table as unknown; no handler pushes such a string.
- The pre-check in ban and mute swallows any error of the lookup in the issuing server. The model treats an issuing server missing from the cache as protecting nobody.
