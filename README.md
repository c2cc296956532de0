# gearshift-bot, modelled in Dafny

gearshift-bot is a Discord bot that offers moderation commands, guild configuration with anti-raid protection, giveaways, support tickets, a racing credit economy and a music queue, all backed by a SQLite database. This project models its decision logic and its state changes, and proves what the code promises about them. The Discord SDK, the clock and `Math.random` are replaced by parameters. Each handler takes the SDK's answers (a member record, whether a call failed, a fetched message list) as inputs and returns an outcome tag in place of the embed it would send.

Modules, one per part of the program:

- `Common`, `Text`: options, sequence helpers (filters, a descending insertion sort, prefixes) and the string functions the handlers use (decimal digits, padding, case mapping, split and join).
- `Store` (`database.dfy`): the class `Store.Database`. It holds one field per table: modlogs, giveaways, guild settings, verifications, raid rows, racing users and races. Each method updates exactly its table, as the SQL statement does. The queries are functions over those tables.
- `Permissions`: the member checks and the moderation hierarchy.
- `Dispatch` (`interaction_create.dfy`): the slash-command gate as the class `Dispatch.Router`, which holds the per-command cooldown map.
- `Moderation`: the guard chains of `/ban`, `/kick`, `/mute` and `/warn`, message selection in `/purge`, and the `/modlogs` summary.
- `Duration`: the `(\d+)([smhd])` duration parser shared by `/mute` and `/giveaway`, as a loop proved against a recursive specification.
- `GuildConfig`, `MemberJoin`: the `/antiraid`, `/autorole` and `/verify` commands, the verify button, and the join handler with its anti-raid window.
- `Giveaways`, `Tickets`: the giveaway lifecycle and join button, and the ticket naming, gates and transcript.
- `Economy`, `Racing`, `EconomyViews`: `/transfer`, `/daily`, `/givecredits`, `/resetstats`, `/race`, and the displays of `/leaderboard`, `/stats` and `/balance`.
- `Music`, `Uptime`: the per-guild song queue behind `/play`, `/skip`, `/stop` and `/queue`, the song-duration clock, and the uptime line of `/ping`.

Each command is given as a pure effect function, such as `Economy.TransferEffect` or `Music.PlayEffect`. The function maps the state before the call to the reply and the state after it. The command's method runs the same steps in the source's order against the store or the player object, and is proved to equal that function. Lemmas beside each effect function state what the source promises: refusal conditions in both directions, conservation of credits, rows of other users left untouched, invariants kept, and read-back of rendered text.

The code and the descriptions of the system agree on everything modelled, except on the points below, where the model follows the code:

- The anti-raid window is counted before the current join is logged, and the count is compared with `>=`. The ban therefore hits the join after the threshold (`MemberJoin.BurstBansAfterThreshold`).
- `racing_users` is keyed by `user_id` alone. A user who already has a row in one guild cannot be enrolled in another, and the command then fails (`Economy.EnrolmentIs`).
- Every settings write replaces the whole row, so one feature's command switches the others off (`GuildConfig.CommandsOverwriteEachOther`).
- Nothing ever creates a verification row, so the verify button never records a verification (`GuildConfig.VerifiedOnlyWithExistingRow`).
- `/race` runs the caller's get-or-create step before it reads the subcommand. When the insert is refused because the user id is taken in another guild, every subcommand ends in the error reply, before the self and bot checks (`Racing.PlayerRaceRefusals`).
- `/skip` calls `playNext` as a bare function taken off the module, so `this.playMusic` inside it is not a method. A skip with songs waiting therefore throws and ends in the error reply with the queue unchanged. A skip of the last song idles the queue as intended (`Music.SkipFacts`).
- A giveaway may last up to 28 days, but `setTimeout` fires any delay above 2^31 - 1 ms (about 24.8 days) after 1 ms. A giveaway longer than that is ended by its timer at once (`Giveaways.TimerDelayOfAccepted`, `Giveaways.TwentyEightDaysEndsAtOnce`).

Two wiring faults are not followed: the missing `Collection` import and the unexported music maps. The model takes the intended behaviour for both, and "## Left out" names them.

## Model

| member | source | states |
|---|---|---|
| Store.SettingsFromPatch | utils/database.js:227-254 | the stored settings row: ban roles default to the empty list; role and channel ids are kept only when non-empty; anti-raid is on only for `true`; threshold 5 and window 60000 replace an absent or zero value; `created_at` is 0 and `updated_at` is the write time |
| Store.EmptyPatchIsDefaults | utils/database.js:236-246 | an empty settings object stores exactly the column defaults |
| Store.NewRacingUser | utils/database.js:84-97 | a new racer starts with 1000 credits, zero races, wins, losses and daily fields, and both time stamps at creation time |
| Store.ApplyRacingPatch | utils/database.js:360-403 | every column named in the update takes its new value, every other column keeps its old one, the keys and `created_at` are unchanged and `updated_at` is the write time |
| Store.SortColumn | utils/database.js:407-408 | the leaderboard sorts by `wins` or `total_races` exactly when asked for, and by `credits` for every other request |
| Store.GetModlogs | utils/database.js:131-142 | every moderation action recorded against the member in this guild, each row with its multiplicity, newest first |
| Store.GetGiveaway | utils/database.js:161-172 | a giveaway row with the message id, or nothing exactly when no row has it |
| Store.GetActiveGiveaways | utils/database.js:200-211 | exactly the guild's active giveaways that have not yet ended, with multiplicities |
| Store.GetGuildSettings | utils/database.js:214-225 | the guild's settings row, present exactly when the guild has one |
| Store.IsUserVerified | utils/database.js:286-297 | true only when some row for the member is verified; false without any row; when every row for the member is verified, true exactly when one exists |
| Store.GetRecentRaidActions | utils/database.js:316-327 | exactly the guild's raid rows newer than the window, with multiplicities |
| Store.GetRacingUserFinds | utils/database.js:330-341 | the lookup fails exactly when no row matches both ids, and otherwise returns the first matching row |
| Store.GetRacingLeaderboard | utils/database.js:405-419 | at most `limit` rows of the guild, in descending order of the sort column, with no row shown more often than it is stored, and every guild row left out ranks no higher than every row shown, which only happens when the board is full |
| Store.SetClauses | utils/database.js:362-392 | the loop builds the `SET` list, one clause per column the update names, in the source's order |
| Store.SetListApplies | utils/database.js:362-403 | applying those clauses one after another is the same as applying the whole update |
| Store.WithWinner | utils/database.js:437-448 | only the race with the given id gets the winner; every other race is unchanged |
| Store.PatchedUsers | utils/database.js:394-401 | only the rows with both ids get the update; every other row is unchanged |
| Store.WithParticipants | utils/database.js:174-185 | only rows with the message id get the new participant list |
| Store.Deactivated | utils/database.js:187-198 | only rows with the message id become inactive |
| Store.MarkVerified | utils/database.js:273-284 | only the member's rows in the guild become verified, with the time of verification |
| Store.MarkVerifiedRecords | utils/database.js:273-297 | after verifying, the member reads as verified exactly when a verification row for them existed before |
| Store.Database.constructor | utils/database.js:4-112 | all seven tables start empty and the settings are keyed by guild id |
| Store.Database.AddModlog | utils/database.js:115-129 | appends one modlog row and returns its row id |
| Store.Database.CreateGiveaway | utils/database.js:145-159 | appends one active giveaway with no participants and returns its row id |
| Store.Database.UpdateGiveawayParticipants | utils/database.js:174-185 | the giveaway table becomes `WithParticipants` of the old one |
| Store.Database.EndGiveaway | utils/database.js:187-198 | the giveaway table becomes `Deactivated` of the old one |
| Store.Database.UpdateGuildSettings | utils/database.js:227-254 | `INSERT OR REPLACE` sets the guild's row to `SettingsFromPatch`, other guilds keep theirs |
| Store.Database.CreateVerification | utils/database.js:257-271 | appends an unverified row and returns its row id |
| Store.Database.VerifyUser | utils/database.js:273-284 | the verification table becomes `MarkVerified` of the old one |
| Store.Database.LogRaidAction | utils/database.js:300-314 | appends one raid row and returns its row id |
| Store.Database.CreateRacingUser | utils/database.js:343-358 | inserts a new racer exactly when the user id is not taken (`user_id` is the primary key) and otherwise changes nothing; ids stay unique |
| Store.Database.UpdateRacingUser | utils/database.js:360-403 | the racer table becomes `PatchedUsers` of the old one; ids stay unique |
| Store.Database.CreateRace | utils/database.js:421-435 | appends a race without a winner and returns its row id |
| Store.Database.UpdateRace | utils/database.js:437-448 | the race table becomes `WithWinner` of the old one |
| Permissions.CanModerateExactly | utils/permissions.js:24-35 | a member may act on a target exactly when they are different people, the target does not own the guild, the member's highest role is strictly higher and the member is a moderator (moderator role, Moderate Members, or Administrator) |
| Permissions.CanModerateExcludes | utils/permissions.js:26-27 | nobody can moderate themselves, and nobody can moderate the guild owner |
| Permissions.CanModerateAntisymmetric | utils/permissions.js:30-32 | of two members at most one can moderate the other |
| Permissions.AdministratorIsModerator | utils/permissions.js:5-17 | an Administrator holds every permission, and so counts as moderator and admin |
| Permissions.GetRequiredPermissions | utils/permissions.js:37-49 | the seven listed commands map to their flags (`ban` to Ban Members, `kick` to Kick Members, `ticket` to Manage Channels, `mute` and `warn` to Moderate Members, `purge` and `announce` to Manage Messages) and every other name falls back to Send Messages (own-property lookup; see "## Left out") |
| Permissions.AdminAndOwnerChecks | utils/permissions.js:14-22 | a member is an admin exactly with the admin role or Administrator, and an owner exactly with the owner role or the developer's id |
| Dispatch.CooldownMs | events/interactionCreate.js:53-54 | the cooldown is the command's own in seconds as milliseconds, or 3 seconds when it declares none |
| Dispatch.Router.constructor | index.js:63-65 | the router starts with the registered commands and no cooldowns |
| Dispatch.Router.Execute | events/interactionCreate.js:7-82 | the reply is `Decide` of the registry and the cooldowns before the call, and the cooldowns afterwards are `CooldownsAfter` |
| Dispatch.UnknownCommandIsSilent | events/interactionCreate.js:10-15 | an unregistered command gets no reply and records no cooldown |
| Dispatch.HandlerNeedsAPermission | events/interactionCreate.js:17-42 | a command that declares permissions runs only in a guild for a member holding one of them; an empty list refuses everyone |
| Dispatch.RefusalRecordsNothing | events/interactionCreate.js:17-69 | a guild-only, permission or cooldown refusal leaves the cooldowns unchanged |
| Dispatch.CooldownExactly | events/interactionCreate.js:56-70 | past the permission check, the call is on cooldown exactly when the user has a stored time for this command and now is before it plus the cooldown |
| Dispatch.CooldownWaitBounded | events/interactionCreate.js:57-59 | with no stored time in the future, the announced expiry lies after now and at most one cooldown ahead |
| Dispatch.AcceptedStoresNow | events/interactionCreate.js:72-81 | an accepted call stores now as the user's time for the command, and the handler's failure is reported exactly when the gate passed and the handler threw |
| Dispatch.CooldownsArePerCommand | events/interactionCreate.js:47-52 | using one command never changes the cooldown of another |
| Dispatch.ExpiredEntryIsInvisible | events/interactionCreate.js:73 | deleting an expired timestamp, as the timer does, changes no decision |
| Dispatch.RepeatWithinWindow | events/interactionCreate.js:56-72 | repeating an accepted call within the cooldown is refused with the expiry of the first, and after it goes through again |
| Dispatch.BanGate | commands/ban.js:27-28 | `/ban` runs only for members with Ban Members or Administrator |
| Dispatch.UndeclaredCommandsOpen | commands/antiraid.js:7-42 | commands without a permission list are never refused by this gate, even in a direct message |
| Dispatch.PurgeCooldown | commands/purge.js:24-25 | a second `/purge` within ten seconds does not run |
| Moderation.DefaultReason | commands/ban.js:32 | the reason given, or `No reason provided` when it is absent or empty; never empty |
| Moderation.BanCheck | commands/ban.js:35-84 | refuses a self-ban first and the bot second; passes exactly when the target is neither the moderator, the bot nor the owner, is not already banned (when the ban list could be read) and, if they are a member, the moderator can moderate them; never refuses for a missing member or a bad duration |
| Moderation.KickCheck | commands/kick.js:28-72 | refuses a self-kick first; passes exactly when the target is neither the moderator, the bot nor the owner, is in the server and can be moderated; a missing member is the only reason for `TargetNotInServer` |
| Moderation.WarnCheck | commands/warn.js:28-63 | refuses a self-warning first; passes exactly when the target is neither the moderator nor the bot, is in the server and can be moderated; there is no separate owner check |
| Moderation.MuteCheck | commands/mute.js:33-78 | passes exactly when the warn checks pass and the parsed duration lies in the 1-minute to 28-day window; an out-of-window duration is reported only after the member checks pass |
| Moderation.KickAndWarnAgree | commands/kick.js:46-53 | for a target whose member record matches their id, kick and warn accept the same targets: warn's missing owner check is covered by the hierarchy check |
| Moderation.OwnerIsNeverWarnedOrMuted | commands/warn.js:56-63 | the guild owner can never be warned or muted |
| Moderation.BanIsMostPermissive | commands/ban.js:76-84 | every target kick accepts, ban accepts too when not already banned; a user outside the server can be banned but not kicked |
| Moderation.PassingGuardOutranks | utils/permissions.js:24-35 | whenever a ban, kick or warn check passes for a member, the moderator outranks them and is a moderator |
| Moderation.ModOutcomeOf | commands/ban.js:86-141 | the command is refused exactly for a failed check, reports the platform error when the action fails, and completes only when nothing fails |
| Moderation.Ban | commands/ban.js:30-142 | the outcome follows the checks; a ban request with the delete-days option (0 when absent) is issued exactly when the checks pass; a `banned` modlog row with the defaulted reason is added only when everything succeeds |
| Moderation.Kick | commands/kick.js:24-125 | as for ban, with a kick request and a `kicked` row |
| Moderation.Mute | commands/mute.js:28-136 | as for ban, with a timeout of the parsed duration and a `muted` row that keeps the duration text |
| Moderation.Warn | commands/warn.js:24-113 | there is no platform action; a `warned` row with the given reason is added only when the checks pass and the replies succeed |
| Moderation.RecordedActionJoinsHistory | commands/modlogs.js:24 | a new row for a member shows up in that member's history, which grows by exactly one |
| Moderation.RecordedActionLeavesOthers | utils/database.js:131-142 | a row for one member leaves every other member's history as it was |
| Moderation.PurgeSelection | commands/purge.js:34-40 | the messages to delete are exactly the fetched ones that are not pinned and, with a user filter, by that user |
| Moderation.Purge | commands/purge.js:28-106 | only messages among the last `amount` are deleted; nothing selected gives `No Messages Found`; error 50034 gives the 14-day message; otherwise the reported count is the platform's |
| Moderation.PurgeTakesAllWhenNothingPinned | commands/purge.js:35 | with nothing pinned and no user filter, every fetched message is deleted |
| Moderation.BumpCounts | commands/modlogs.js:39-42 | one more log of an action adds one to that action's count and one to the total |
| Moderation.BumpDistinct | commands/modlogs.js:39-42 | counting keeps one entry per action |
| Moderation.TallyIsExact | commands/modlogs.js:39-42 | the action counts have one entry per action, each at least 1, each equal to the number of logs of that action, and they add up to the number of logs |
| Moderation.RecentLine | commands/modlogs.js:65-70 | a recent-action line shows the capitalised action, the duration only when there is one, the moderator's tag or `Unknown`, and the defaulted reason |
| Moderation.Summarize | commands/modlogs.js:24-76 | no logs gives the empty summary; otherwise the total, the first and latest times from the ends of the newest-first list, the counts, and the lines of the five newest logs |
| Moderation.SummaryOfStoredHistory | commands/modlogs.js:50-52 | every stored action of the member falls between the first and latest action shown, and the per-action counts are exact and add up to the total |
| Moderation.NewestFirstBounds | commands/modlogs.js:51-52 | in a newest-first list the last entry is the earliest time and the first is the latest |
| Duration.UnitMs | commands/mute.js:147-160 | seconds, minutes, hours and days are 1000, 60000, 3600000 and 86400000 milliseconds |
| Duration.RunEnd | commands/mute.js:139 | the greedy `\d+` run ends at the first non-digit, or at the end of the text |
| Duration.Exec | commands/mute.js:139-143 | the next match of `(\d+)([smhd])` from a position is a maximal digit run directly followed by a unit letter, and none is missed before it |
| Duration.ComponentIsProduct | commands/mute.js:147-160 | each branch of the unit switch adds the count times the unit's milliseconds |
| Duration.RunValueParses | commands/mute.js:144 | the value read from a digit run is its decimal value, as `parseInt` gives it |
| Duration.ParseDuration | commands/mute.js:138-164 | the regex loop returns the sum over all matches of count times unit, scanning left to right; the copy at commands/giveaway.js:281-307 is the same code |
| Duration.InWindowBounds | commands/mute.js:72 | a duration is accepted exactly from one minute to 28 days, the bounds that `/mute` and `/giveaway start` check |
| Duration.NoUnitIsZero | commands/mute.js:143-161 | text without any unit letter parses to zero, which both commands refuse |
| Duration.ExecShift | commands/mute.js:139-143 | a match found after a prefix is the match in the rest, shifted by the prefix |
| Duration.ScanShift | commands/mute.js:143-161 | what is parsed from a position after a prefix does not depend on the prefix |
| Duration.ScanPrefix | commands/mute.js:143-161 | text ending in a non-digit parses independently of what follows it |
| Duration.ScanConcat | commands/mute.js:143-161 | two texts, the first ending in a non-digit, parse to the sum of their parts, as in `2h30m` |
| Duration.OneComponent | commands/mute.js:143-161 | a count followed by one unit letter parses to the count in that unit |
| Duration.RenderRoundTrip | commands/mute.js:138-164 | writing counts with their units one after another parses back to their total in milliseconds |
| MemberJoin.JoinEffects | events/guildMemberAdd.js:8-63 | no settings means no effect; the auto role is added exactly when it is set, exists and adding it succeeds; the member is banned exactly when anti-raid is on, the window holds at least the threshold of joins and the ban succeeds; the notice goes to the log channel only after a ban and only when that channel exists; the role always comes first and nothing repeats |
| MemberJoin.OnMemberJoin | events/guildMemberAdd.js:8-63 | the effects are `JoinEffects` of the stored settings and of the window counted before this join; a `JOIN` row is logged exactly when anti-raid is on, on both branches |
| MemberJoin.JoinRows | utils/database.js:300-314 | the rows the join handler logs for a list of joins, one per join, in order |
| MemberJoin.WindowCountsEarlierJoins | utils/database.js:316-327 | during a burst of joins within one window that starts from a quiet guild, the window seen by the k-th join holds exactly the k joins before it |
| MemberJoin.OldRowsOutOfWindow | utils/database.js:319-320 | rows from before a quiet start stay outside every later join's window |
| MemberJoin.EarlierRowsInWindow | utils/database.js:319-320 | during the burst, every earlier join is inside the window of a later one |
| MemberJoin.BurstBansAfterThreshold | events/guildMemberAdd.js:27-36 | in such a burst, the k-th join triggers the anti-raid ban exactly when k reaches the threshold |
| MemberJoin.JoinAppendsOnePrefixRow | events/guildMemberAdd.js:33 | one more join adds exactly its own row to the log |
| GuildConfig.EnableThreshold | commands/antiraid.js:48 | the threshold is the option or 5, and lies in the option's range 3 to 20 |
| GuildConfig.EnableTimeframe | commands/antiraid.js:49 | the window is the option or 60 seconds, in milliseconds, from 10 to 300 seconds |
| GuildConfig.EnableRow | commands/antiraid.js:47-55 | `enable` stores a row with anti-raid on and the chosen threshold and window, and every other setting of the guild reset to its default |
| GuildConfig.DisableRow | commands/antiraid.js:64-67 | `disable` stores a row with anti-raid off and every other setting at its default |
| GuildConfig.AntiRaidStatusOf | commands/antiraid.js:71-94 | the status shows disabled exactly without settings or with anti-raid off, and otherwise the stored threshold and the window in seconds |
| GuildConfig.EnableThenStatus | commands/antiraid.js:47-94 | after `enable`, `status` shows exactly the threshold and seconds `enable` reported |
| GuildConfig.AntiRaidEnable | commands/antiraid.js:47-63 | writes the enable row for the guild only and reports the threshold and seconds |
| GuildConfig.AntiRaidDisable | commands/antiraid.js:64-70 | writes the disable row for the guild only |
| GuildConfig.AutoRoleSetCommand | commands/autorole.js:38-57 | refuses a role at or above the bot's highest role and then changes nothing; otherwise stores the role for the guild only |
| GuildConfig.AutoRoleRemove | commands/autorole.js:58-64 | stores a row without an auto role for the guild only |
| GuildConfig.AutoRoleRow | commands/autorole.js:50-52 | setting an auto role stores it and resets every other setting of the guild to its default |
| GuildConfig.AutoRoleStatusOf | commands/autorole.js:65-85 | no auto role shown exactly when none is stored; `Role not found` exactly when the stored role is gone; otherwise that role |
| GuildConfig.VerifySetup | commands/verify.js:43-92 | refuses without Send Messages and Embed Links in the channel, then refuses a role the bot cannot assign, changing nothing in both cases; otherwise stores channel and role, even when posting the panel then fails |
| GuildConfig.VerifyRemove | commands/verify.js:93-100 | stores a row without verification channel and role for the guild only |
| GuildConfig.VerifyStatusOf | commands/verify.js:101-127 | not set up exactly when channel or role is missing; otherwise whether each is still found |
| GuildConfig.RemovalsCoincide | utils/database.js:236-246 | `disable`, `autorole remove` and `verify remove` all store the same all-default row |
| GuildConfig.CommandsOverwriteEachOther | utils/database.js:230-246 | each of `autorole set`, `verify setup` and `antiraid enable` replaces the whole row, so it switches the other two features off |
| GuildConfig.SetupThenStatus | commands/verify.js:64-127 | after setup, status shows the system active with exactly the channel and role that still exist |
| GuildConfig.VerifyButtonReply | events/buttonInteraction.js:418-481 | the button replies `not set up` without a verification role, `already verified`, `role not found`, and otherwise success or failure as adding the role succeeds or fails |
| GuildConfig.VerifyButton | events/buttonInteraction.js:418-481 | the reply is `VerifyButtonReply` of the stored settings and verification; only a success marks the member's rows verified |
| GuildConfig.VerifiedOnlyWithExistingRow | events/buttonInteraction.js:435-456 | without a verification row, verifying changes nothing and the member never reads as verified, so the button keeps answering as for a new member |
| Giveaways.GetWithParticipants | utils/database.js:161-185 | after the participants update, the giveaway reads back with exactly the new participants and everything else unchanged, and a missing giveaway stays missing |
| Giveaways.GetDeactivated | utils/database.js:161-198 | after ending, the giveaway reads back inactive with everything else unchanged |
| Giveaways.GetAppendedFresh | utils/database.js:145-172 | a newly created giveaway reads back as the row just inserted |
| Giveaways.WinnerCount | commands/giveaway.js:22-27 | the winner count is the option or 1, and lies in the option's range 1 to 10 |
| Giveaways.Start | commands/giveaway.js:60-119 | refuses exactly a duration that is not between 1 minute and 28 days, storing nothing; otherwise ends at now plus the duration, schedules its timer with the delay `setTimeout` actually waits, and appends one active giveaway without participants |
| Giveaways.TimerDelayOfAccepted | commands/giveaway.js:68-111 | an accepted duration is waited in full exactly when it is at most 2^31 - 1 ms; a longer one fires after 1 ms |
| Giveaways.TwentyEightDaysEndsAtOnce | commands/giveaway.js:68-111 | `28d` is accepted and its timer fires after 1 ms |
| Giveaways.SliceTo | commands/giveaway.js:278 | the slice keeps the first n elements (or all but the last -n for a negative count) and is a prefix of the list |
| Giveaways.SelectWinners | commands/giveaway.js:276-279 | winners are drawn from the participants without repetition, as many as the winner count allows, and distinct when the participants are |
| Giveaways.AllWinWhenFew | commands/giveaway.js:276-279 | with no more participants than winners, everyone wins |
| Giveaways.EndOutcomeOf | commands/giveaway.js:178-230 | a missing or inactive giveaway is skipped; a failing message edit stops before the row changes; no participants ends without winners; otherwise the winners are `SelectWinners` of the participants |
| Giveaways.EndGiveaway | commands/giveaway.js:178-230 | the outcome is `EndOutcomeOf` the stored giveaway; the giveaway is deactivated exactly when it ended, and nothing else changes |
| Giveaways.SecondEndIsSkipped | commands/giveaway.js:183-186 | ending an ended giveaway again is skipped |
| Giveaways.HandleEnd | commands/giveaway.js:122-150 | a message that cannot be found changes nothing; otherwise the end proceeds as `EndOutcomeOf` |
| Giveaways.RerollOutcomeOf | commands/giveaway.js:232-274 | a missing giveaway is skipped, one without participants has nothing to reroll, otherwise new winners are `SelectWinners` of the participants |
| Giveaways.RerollIgnoresActive | commands/giveaway.js:237-240 | reroll treats an ended giveaway exactly as an active one |
| Giveaways.JoinReply | events/buttonInteraction.js:361-416 | the join button answers not found for a missing or inactive giveaway, ended past the end time, already joined for a participant, and otherwise joins with one more participant |
| Giveaways.JoinGiveaway | events/buttonInteraction.js:361-416 | the reply is `JoinReply` of the stored giveaway; a join appends the user to the participants and nothing else changes |
| Giveaways.JoinKeepsEntrantsDistinct | events/buttonInteraction.js:388-398 | joins keep every giveaway's participants free of duplicates |
| Giveaways.JoinIsIdempotent | events/buttonInteraction.js:388-394 | pressing the button again before the end answers already joined |
| Giveaways.StartThenJoin | events/buttonInteraction.js:361-416 | the first press on a fresh giveaway joins it as its only participant |
| Tickets.TicketName | events/buttonInteraction.js:189 | a ticket channel's name is `ticket-` followed by the lower-cased username |
| Tickets.TicketNameCaseInsensitive | events/buttonInteraction.js:175-189 | two users share a ticket name exactly when their usernames agree after lower-casing |
| Tickets.OwnerIsInTicketChannel | events/buttonInteraction.js:39-48 | the owner's channel always passes the ticket-channel test |
| Tickets.SetupGate | commands/ticket.js:38-47 | `/ticket setup` is allowed exactly with Manage Channels, which Administrator implies |
| Tickets.CloseGate | commands/ticket.js:175-196 | closing is refused outside ticket channels; inside, allowed exactly for the owner or staff (moderator role or Manage Channels) |
| Tickets.StaffGate | events/buttonInteraction.js:263-282 | claiming, adding and removing users is refused outside ticket channels and allowed inside exactly for staff |
| Tickets.ConfirmGate | events/buttonInteraction.js:91-100 | confirming the close only checks that the channel is a ticket channel |
| Tickets.StaffGateImpliesCloseGate | events/buttonInteraction.js:37-58 | staff who may claim may close; the owner may always close; an owner who is not staff may not claim |
| Tickets.CreateTicket | events/buttonInteraction.js:171-195 | refused exactly when a text channel with the user's ticket name exists; otherwise creates a channel the user owns |
| Tickets.CreateOnce | events/buttonInteraction.js:174-184 | once the ticket channel exists, a second create is refused |
| Tickets.CreatorMayClose | events/buttonInteraction.js:37-58 | the creator of a ticket may close it |
| Tickets.TranscriptLines | events/buttonInteraction.js:102-106 | the transcript holds one line per fetched message, at most 100, oldest first |
| Tickets.TranscriptSplitsIntoLines | events/buttonInteraction.js:102-106 | without line breaks in the messages, the transcript splits back into exactly those lines |
| Tickets.TranscriptField | events/buttonInteraction.js:133-139 | the transcript field is present exactly for a transcript under 2000 characters and holds its first 1000 characters followed by `...`, fenced |
| Economy.GetPatched | utils/database.js:360-403 | a racing update changes only the addressed user's row, by applying the patch, and a missing row stays missing |
| Economy.GetAppended | utils/database.js:343-358 | an inserted row is found only when no earlier row has the same user and guild |
| Economy.FoundIsTheRow | utils/database.js:330-341 | with one row per user, the lookup finds each stored row |
| Economy.PatchKeepsSound | utils/database.js:360-403 | a patch that keeps its row sound keeps the whole table sound and unique |
| Economy.EnrolledLookup | utils/database.js:343-358 | enrolling adds a fresh row for the user only when they have none and their id is not taken, leaving every other lookup unchanged |
| Economy.EnrolmentIs | utils/database.js:4-112 | the row seen after enrolment is the stored row, or a fresh one with 1000 credits; it is missing exactly when the insert would break the `user_id` uniqueness, and then nothing changes |
| Economy.Enrol | commands/transfer.js:49-53 | the get-or-create step leaves the enrolled table and returns the user's row in it |
| Economy.SeenRow | commands/race.js:47-51 | the row a command sees for a user has that user's id, guild and balance |
| Economy.TransferToRecipientIs | commands/transfer.js:72-79 | the transfer writes sender minus amount and recipient plus amount and reports both new balances |
| Economy.Transfer | commands/transfer.js:24-100 | the reply and the table are those `TransferEffect` describes for the stored rows |
| Economy.PayRecipient | commands/transfer.js:64-79 | after enrolling the recipient, the payment proceeds as `TransferToRecipient` |
| Economy.TransferRefusals | commands/transfer.js:31-62 | a transfer to oneself, to a bot and above the sender's balance are refused exactly in their cases, with the balance shown, changing at most the sender's enrolment |
| Economy.CreditsPatched | commands/transfer.js:72-79 | a credits-only patch sets the credits and the update time and nothing else |
| Economy.PaidLookup | commands/transfer.js:72-79 | after the payment the sender's and the recipient's rows hold the new balances and all other rows are unchanged |
| Economy.TwoPatchesLookup | utils/database.js:360-403 | two updates of two different users act independently |
| Economy.PairEnrolments | commands/transfer.js:49-70 | enrolling two different users gives each the row a command sees for them and leaves everybody else alone |
| Economy.TransferMovesCredits | commands/transfer.js:56-79 | a completed transfer moves exactly the amount from sender to recipient, preserving their combined credits, and changes nobody else |
| Economy.EnrolledKeepsSound | utils/database.js:84-97 | enrolment keeps balances non-negative and one row per user and guild |
| Economy.TransferKeepsSound | commands/transfer.js:56-79 | transfers of a positive amount keep balances non-negative and rows unique |
| Economy.CeilDiv | commands/daily.js:30 | rounding the hours left up: the quotient is the least whole number of hours covering the time |
| Economy.StreakBonus | commands/daily.js:41 | the streak bonus is 10 credits per earlier claim, capped at 200, and zero exactly for the first claim |
| Economy.Daily | commands/daily.js:10-70 | the reply and the table are those `DailyEffect` describes for the stored rows |
| Economy.DailyGate | commands/daily.js:17-37 | the claim fails exactly when the user cannot be enrolled and is refused exactly within a day of the last claim, showing the hours left rounded up (1 to 24), and then only the enrolment changes |
| Economy.DailyClaimFacts | commands/daily.js:39-67 | a claim pays 200 to 400 credits, counts one more claim, stamps the claim time, and shows a bonus exactly when it is nonzero |
| Economy.DailyLeavesOthers | commands/daily.js:45-50 | a claim changes no other row |
| Economy.ClaimOncePerDay | commands/daily.js:28-36 | a second claim within a day is refused with the hours left and changes nothing |
| Economy.ClaimAgainNextDay | commands/daily.js:28 | a day after a claim the next claim succeeds |
| Economy.FirstDaily | commands/daily.js:17-50 | a new user's first claim pays 200 without bonus, for a balance of 1200 |
| Economy.DailyKeepsSound | commands/daily.js:45-50 | claims keep balances non-negative and rows unique |
| Economy.GiveCredits | commands/givecredits.js:30-71 | the reply and the table are those `GiveEffect` describes for the stored rows |
| Economy.GiveAddsExactly | commands/givecredits.js:35-58 | giving to a bot is refused, an unenrollable user fails, and otherwise exactly the amount is added, with `Admin reward` as the reason when none is given |
| Economy.GiveLeavesOthers | commands/givecredits.js:54-57 | giving changes no other row |
| Economy.GiveKeepsSound | commands/givecredits.js:54-57 | giving a non-negative amount keeps balances non-negative and rows unique |
| Economy.ResetPatchColumns | commands/resetstats.js:49-80 | each reset type sets exactly its columns, each to the value a new row starts with |
| Economy.ResetStats | commands/resetstats.js:29-96 | the reply and the table are those `ResetEffect` describes for the stored rows |
| Economy.ResetRestores | commands/resetstats.js:36-86 | a user without racing data gets an error and nothing changes; otherwise the reset columns return to their defaults, every other column keeps its value, and the update time is stamped |
| Economy.ResetAllIsNewRow | commands/resetstats.js:50-59 | resetting `all` leaves a row equal to a fresh one created at the same time |
| Economy.ResetLeavesOthers | commands/resetstats.js:83 | a reset changes no other row |
| Economy.ResetKeepsSound | commands/resetstats.js:83 | resets keep balances non-negative and rows unique |
| Racing.WinPatched | commands/race.js:127-131 | the winner's patch adds the prize to the credits and counts one more race and one more win, leaving the rest of the row as it was |
| Racing.LossPatched | commands/race.js:132-136 | the loser's patch takes the wager off the credits and counts one more race and one more loss |
| Racing.Race | commands/race.js:39-247 | the outcome and both tables are those `RaceEffect` describes: the error reply when the caller's row can be neither found nor created, otherwise the subcommand; the store stays well formed |
| Racing.RacePlayer | commands/race.js:53-165 | a player race of an enrolled caller updates the store as `PlayerRace` of the stored rows |
| Racing.RaceOpponent | commands/race.js:82-165 | after enrolling the opponent, the race proceeds as `PlayerRaceAgainst` |
| Racing.SettleRace | commands/race.js:96-165 | a settled player race writes the race row, the payout and the winner as `Settle` describes |
| Racing.PayOutWrites | commands/race.js:125-149 | the two user writes leave exactly `PayOut` of the rows |
| Racing.RaceAi | commands/race.js:166-240 | an AI race updates the store as `AiRace` of the stored rows |
| Racing.PlayerRaceRefusals | commands/race.js:44-95 | a caller who can be neither found nor created gets the error reply and nothing changes; otherwise racing oneself, racing a bot, a wager above one's own credits and a wager above the opponent's credits are each refused exactly in their case, with the balance shown; a refusal writes no race and at most enrols the two users |
| Racing.PlayerRaceSettles | commands/race.js:96-151 | a finished player race involves two users who can both cover the wager, settles as `SettledAs`, and adds exactly the base reward plus the roll to their combined credits |
| Racing.SettleRows | commands/race.js:96-151 | settlement stores one race row with its winner, pays the winner reward plus wager and charges the loser the wager, and adds exactly the base reward plus the roll to the pair's credits |
| Racing.PayOutRows | commands/race.js:125-149 | after the payout the winner's row holds the win patch and the loser's the loss patch |
| Racing.PlayerRaceLeavesOthers | commands/race.js:39-165 | a player race changes no row besides the two racers' |
| Racing.PlayerRaceKeepsSound | utils/database.js:84-97 | player races keep every credit balance non-negative and one row per user and guild |
| Racing.SettleKeepsSound | commands/race.js:125-149 | settlement keeps balances non-negative and rows unique |
| Racing.PayOutKeepsSound | commands/race.js:125-149 | the payout keeps balances non-negative and rows unique |
| Racing.AiRaceSettles | commands/race.js:166-224 | an AI race fails exactly when the user cannot be enrolled, is refused exactly for a wager above the credits, and otherwise stores one AI race won by the player or by `ai` and credits reward plus wager on a win or takes the wager on a loss |
| Racing.AiRaceLeavesOthers | commands/race.js:166-224 | an AI race changes no row besides the player's |
| Racing.AiRaceKeepsSound | commands/race.js:166-224 | AI races keep balances non-negative and rows unique |
| Racing.OtherSubcommandOnlyEnrols | commands/race.js:44-53 | any other subcommand only enrols the user and answers nothing, or gives the error reply when the enrolment is refused |
| EconomyViews.SumBoundsEach | commands/leaderboard.js:89-90 | the sum of a non-negative column is non-negative and at least each of its terms |
| EconomyViews.PlaceOf | commands/leaderboard.js:63-64 | the first three places get gold, silver and bronze, and every later one its number |
| EconomyViews.PlaceLabelReadsBack | commands/leaderboard.js:64 | a numbered place is shown as its number followed by a dot, and reads back as that number |
| EconomyViews.BoardLimit | commands/leaderboard.js:33 | the board size is the option or 10, and lies in the option's range 1 to 20 |
| EconomyViews.BoardEmptyIff | utils/database.js:405-419 | the leaderboard query is empty exactly when the guild has no racing rows |
| EconomyViews.Entries | commands/leaderboard.js:62-83 | each line shows the row's place, user and value in the sorted column, in board order |
| EconomyViews.Leaderboard | commands/leaderboard.js:30-99 | the board is reported empty exactly when the guild has no racing rows |
| EconomyViews.LeaderboardLines | commands/leaderboard.js:32-90 | a board sorts by credits unless wins or total races are asked for, shows at most the limit of the guild's own rows, one entry per row with its place and value, and counts its players |
| EconomyViews.LeaderboardRanks | commands/leaderboard.js:36-90 | the values shown never increase down the board; a guild row left off means the board is full and the row ranks no higher than any shown; the totals are the sums of credits and races over the board |
| EconomyViews.BoardOrder | utils/database.js:405-419 | entries keep the descending order of the query |
| EconomyViews.BoardCutoff | utils/database.js:405-419 | a guild row missing from the query result means the result already has the limit of rows, each ranking at least as high |
| EconomyViews.LeaderboardTotalsBound | commands/leaderboard.js:89 | with non-negative balances the credit total is non-negative and at least every balance shown |
| EconomyViews.PositionOf | commands/stats.js:51-58 | each achievement has exactly one place in the list's fixed order |
| EconomyViews.Achievements | commands/stats.js:51-58 | the achievements method collects exactly `EarnedList` |
| EconomyViews.EarnedUpToMembers | commands/stats.js:51-58 | the first k checks collect exactly the earned achievements among the first k |
| EconomyViews.EarnedListMeaning | commands/stats.js:51-58 | an achievement is listed exactly when its threshold is met |
| EconomyViews.EarnedLadders | commands/stats.js:52-58 | each higher tier implies the lower one: legend then champion then veteran, credit king then high roller, devotee then streak master |
| EconomyViews.ShownAchievements | commands/stats.js:61-66 | at most the first five earned achievements are shown, in list order |
| EconomyViews.StreakAchievementsHidden | commands/stats.js:52-66 | a user with 100 wins and 50000 credits is shown only the win and credit achievements, whatever their streak |
| EconomyViews.DaysSinceLastDaily | commands/stats.js:70-79 | the last-daily field is shown exactly after some claim, as the whole days since it |
| EconomyViews.FindUserFirst | commands/stats.js:83 | the search finds the first entry of the user, and nothing exactly when no entry is theirs |
| EconomyViews.FindUser | commands/stats.js:83 | a found index holds the user |
| EconomyViews.Stats | commands/stats.js:24-98 | the reply and the table are those `StatsEffect` describes for the stored rows |
| EconomyViews.StatsShowsSeenRow | commands/stats.js:24-48 | the stats show the enrolled user's row and only enrol, and fail exactly when the user cannot be enrolled |
| EconomyViews.RankMeaning | commands/stats.js:82-91 | a shown rank is the user's first position on the top 100 by credits; no rank means the top 100 is full of users with at least as many credits |
| EconomyViews.Suggestions | commands/balance.js:51-61 | the tips method collects exactly `TipList` |
| EconomyViews.TipsMeaning | commands/balance.js:51-61 | the daily tip shows exactly under 1000 credits, the wager tip exactly from 1000, the AI tip exactly under 5 races, so one or two tips in that order |
| EconomyViews.NewUserTips | commands/balance.js:51-61 | a new user is shown the AI race and wager tips |
| EconomyViews.Balance | commands/balance.js:22-76 | the reply and the table are those `BalanceEffect` describes for the stored rows |
| EconomyViews.BalanceShowsBalanceOf | commands/balance.js:22-61 | the balance shows the user's stored credits and their tips, only enrolling them, and fails exactly when they cannot be enrolled |
| Music.StartNextFacts | commands/play.js:108-178 | starting playback with queued songs takes the first as the current song, marks the queue playing unless joining or streaming fails, and records the connection unless joining failed; with no queue or no songs nothing changes; no other guild is touched |
| Music.AdvanceFacts | commands/play.js:180-202 | a finished song starts the next when songs remain and the bot is still in a voice channel; an empty queue becomes idle with no current song and schedules one more teardown, keeping the connection for now |
| Music.TeardownIgnoresPlayback | commands/play.js:194-200 | the scheduled teardown destroys the connection without checking whether a new song is playing |
| Music.StaleTeardownCutsNewSong | commands/play.js:98-200 | a song queued right after the queue emptied starts playing, and the teardown scheduled before it then drops the connection under it |
| Music.WithQueue | commands/play.js:40-48 | the guild's queue exists afterwards, created empty when it was missing |
| Music.PlayFacts | commands/play.js:24-106 | `/play` refuses outside a voice channel without touching any queue, answers not found or error after creating the queue, and otherwise appends the song at position one past the queued songs, starting playback when the queue was idle |
| Music.VoiceCheck | commands/skip.js:18-33 | the command proceeds exactly when the user is in the bot's voice channel |
| Music.SkipFacts | commands/skip.js:13-66 | `/skip` is refused outside the bot's channel and has nothing to skip when nothing plays; with songs waiting it fails and changes nothing, because its detached `playNext` call throws at `this.playMusic`; otherwise it names the current song, idles the queue and schedules one teardown |
| Music.StopFacts | commands/stop.js:13-75 | `/stop` is refused outside the bot's channel, has nothing to stop when nothing plays, and otherwise empties the guild's queue and drops its connection, touching no other guild |
| Music.PlaybackKeepsCoherent | commands/play.js:108-202 | playback steps keep every playing queue holding a current song |
| Music.CommandsKeepCoherent | commands/play.js:24-106 | `/play`, `/skip` and `/stop` keep that invariant |
| Music.QueueView | commands/queue.js:19-25 | the queue is reported empty exactly when there is none, or it is idle with no songs |
| Music.QueueViewFacts | commands/queue.js:27-61 | the view shows playing or paused as the queue is, the current song, the first ten queued songs numbered from 1, and the total only beyond ten |
| Music.DurationParts | commands/play.js:204-208 | hours, minutes below an hour and seconds below a minute add back to the duration |
| Music.ClockFieldsSplit | commands/play.js:209-213 | colon-joined digit fields split back into the same fields |
| Music.HourClockReadsBack | commands/play.js:210 | the hour form splits into three fields and reads back as its seconds |
| Music.MinuteClockReadsBack | commands/play.js:212 | the minute form splits into two fields and reads back as its seconds |
| Music.LongDurationReadsBack | commands/play.js:209-210 | an hour or more is written `h:mm:ss` and reads back exactly |
| Music.ShortDurationReadsBack | commands/play.js:211-212 | under an hour is written `m:ss` and reads back exactly |
| Music.FormatDurationReadsBack | commands/play.js:204-214 | every duration reads back as itself, with three fields from an hour and two below, all but the first two digits wide |
| Music.Player.constructor | commands/play.js:8-10 | the player starts with no queues, connections or pending teardowns |
| Music.Player.PlayMusic | commands/play.js:108-178 | the new state is `StartNext` of the old |
| Music.Player.PlayNext | commands/play.js:180-202 | the new state is `Advance` of the old |
| Music.Player.Teardown | commands/play.js:194-200 | the new state is `TeardownFired` of the old |
| Music.Player.Play | commands/play.js:24-106 | the reply and the new state are `PlayEffect` of the old state |
| Music.Player.Skip | commands/skip.js:13-66 | the reply and the new state are `SkipEffect` of the old state |
| Music.Player.Stop | commands/stop.js:13-75 | the reply and the new state are `StopEffect` of the old state |
| Uptime.UptimeParts | commands/ping.js:47-50 | days, hours below a day, minutes below an hour and seconds below a minute fall short of the uptime by less than a second |
| Uptime.NestedRemainders | commands/ping.js:48-49 | the remainder by an hour is that of the remainder by a day, and likewise for minutes |
| Uptime.FieldReadsBack | commands/ping.js:52-60 | a field holds no space and reads back as its count in its unit |
| Uptime.FieldsReadBack | commands/ping.js:52-60 | space-free fields read back one by one as the total of their counts |
| Uptime.UptimeFieldsSplit | commands/ping.js:52-60 | the uptime text splits on spaces back into its fields |
| Uptime.UptimeTotal | commands/ping.js:52-60 | leaving out leading zero units keeps the total, the uptime's whole seconds |
| Uptime.FormatUptimeReadsBack | commands/ping.js:46-61 | the uptime text reads back as the whole seconds of the uptime, starts with the largest nonzero unit among days, hours and minutes and always ends with the seconds |
| Uptime.SubSecondIsZero | commands/ping.js:58-59 | under a second of uptime is shown as `0s` |
| Text.Capitalize | commands/modlogs.js:69 | the first character is upper-cased and the rest kept, so the length never changes |
| Text.Lower | events/buttonInteraction.js:48 | lower-casing maps every character and keeps the length |
| Text.ParseNatStr | commands/ping.js:53 | a count written in decimal reads back as itself |
| Text.ParsePad2 | commands/play.js:210 | a count padded to two digits reads back as itself |
| Text.SplitJoin | commands/ping.js:53 | joining fields that hold no separator and splitting again gives back the fields |
| Store.GetRacingUser | utils/database.js:330-341 | a found racing row belongs to the asked user and guild |

## Left out

- Replies, embeds, message edits, DMs, log-channel posts and the developer error report are I/O. Each handler returns an outcome tag in their place. utils/embeds.js and utils/errorHandler.js are not part of this model.
- Discord SDK calls that fetch or change guild state are not modelled as calls. This covers fetching members, bans, messages and channels, banning, kicking, timeouts, adding roles and creating channels. Their results, including failures, are parameters.
- Timers are not scheduled. The giveaway auto-end, the ticket channel deletion and the cooldown expiry are parameters or separate operations: `Giveaways.EndGiveaway`, `Dispatch.ExpiredEntryIsInvisible` and `Music.Player.Teardown`. The ticket deletion five seconds after a confirmed close is a channel deletion and is left out with the other SDK effects.
- Concurrency is not modelled. Each handler runs atomically, so the read-then-write races in transfers, races, giveaway joins and settings writes are not captured.
- `Math.random` outcomes are inputs. These are the race winner, the random part of the race reward (0..399 against a player, 0..199 against the AI; the proofs need only that it is not negative) and the shuffle of giveaway participants (any permutation). The model makes no fairness claim.
- `EconomyViews.Achievements`, `EconomyViews.ShownAchievements`, `EconomyViews.Stats`: win rate is not modelled, because of its floating-point `toFixed` formatting. For the same reason the 80 % "Precision Driver" achievement is left out. The stats reply therefore lacks the win-rate field, and a user who has that achievement and fewer than five others is shown one achievement fewer than the source shows.
- `Dispatch.Router.Execute`: events/interactionCreate.js uses `Collection` without importing it, so as written the first use of every command throws there. The model takes the intended behaviour instead: a fresh empty timestamp map per command.
- `Music.Player`: commands/skip.js, commands/stop.js and commands/queue.js read the queue and connection maps through `require('./play')`, but commands/play.js exports neither map, so as written those three commands throw at the lookup. The model instead gives all four commands the one shared state of `Music.Player`.
- `Permissions.GetRequiredPermissions`: the table is looked up by own property only. In the source, `permissions[commandName]` also finds names inherited from `Object.prototype` (`constructor`, `toString`, `__proto__` and the like) and returns that inherited value, not Send Messages; no handler calls this function.
- `Store.Database.UpdateRace`: does not model the `duration` column, because its value is a random real that no handler reads.
- Audio and search are parameters: voice connections, the ytdl and youtube-sr lookups, audio resources and player events. `Music.SongLookup` stands for the lookup result and `Music.PlayFailure` for a failed join or stream.
- Storage mechanics are not modelled: the SQL engine, Promise plumbing, database errors and the JSON encoding of participant lists and ban roles. Row ids are positions in append-only tables.
- `getRacingStats` in utils/database.js is not modelled separately. It runs the same query as `getRacingUser` and is never called.
- No handler calls `createVerification`. Its method `Store.Database.CreateVerification` is modelled but no handler uses it.
- Option bounds that the platform enforces are not checked again. These are the antiraid threshold and window, giveaway winners, transfer and givecredits amounts, the purge amount and the leaderboard limit. They appear as preconditions or as facts about the defaults.
- Discord's string formatting is left out: relative timestamps, `toLocaleString` and mentions. Outcomes carry the numbers instead.
- The announce, nuke, profile and settings commands are not part of this model (presentation and destructive SDK orchestration). Neither are the select-menu handler, the bootstrap files (index.js beyond the two collections, deploy-commands.js, events/ready.js, events/messageCreate.js) and the configuration file.
- `Tickets.TranscriptField`: the 2000 test and the 1000 cut count Unicode scalar values, where `.length` and `substring` count UTF-16 code units, so a transcript with characters outside the Basic Multilingual Plane is measured and cut differently.
- `Text.Lower`: maps ASCII letters only, where `toLowerCase` also maps letters of other scripts; `Text.Capitalize` likewise upper-cases only ASCII letters.
