/**
 * The moderation commands: `/ban`, `/kick`, `/mute` and `/warn` (guards, the platform action,
 * the modlog row), `/purge` (which messages are bulk-deleted) and `/modlogs` (the history summary).
 */
module Moderation {
  import opened Common
  import opened Text
  import opened Permissions
  import opened Store
  import opened Duration

  /** The `user` option: its id, and the guild member for it when the member cache holds one. */
  datatype Target = Target(id: Id, member: Option<Member>)

  /** A cached member is the member of the same user. */
  predicate Consistent(t: Target) {
    t.member.Some? ==> t.member.value.id == t.id
  }

  /** Who runs the command, the bot's own id, the guild and its owner, and the configured roles. */
  datatype Context = Context(moderator: Member, botId: Id, guildId: Id, guildOwner: Id, cfg: Config)

  /** Why a command refuses before touching the target (each is an ephemeral error reply). */
  datatype Refusal =
    | TargetIsSelf
    | TargetIsBot
    | TargetIsOwner
    | AlreadyBanned
    | TargetNotInServer
    | Hierarchy
    | InvalidDuration

  const NoReason := "No reason provided"

  /** `options.getString('reason') || 'No reason provided'`. */
  function DefaultReason(reason: Option<string>): (r: string)
    ensures r != ""
    ensures reason.Some? && reason.value != "" ==> r == reason.value
    ensures reason.None? || reason.value == "" ==> r == NoReason
  {
    Truthy(reason).GetOr(NoReason)
  }

  // ---------------------------------------------------------------- guards

  /**
   * `/ban`: self, bot, owner; then the ban list, consulted only when fetching it succeeded;
   * then the hierarchy, checked only when the target is in the member cache.
   */
  function BanCheck(ctx: Context, target: Target, banList: Option<set<Id>>): (r: Option<Refusal>)
    ensures r == Some(TargetIsSelf) <==> target.id == ctx.moderator.id
    ensures r == Some(TargetIsBot) <==> target.id != ctx.moderator.id && target.id == ctx.botId
    ensures r.None? <==>
      target.id != ctx.moderator.id && target.id != ctx.botId && target.id != ctx.guildOwner &&
      (banList.Some? ==> target.id !in banList.value) &&
      (target.member.Some? ==> CanModerate(ctx.cfg, ctx.moderator, target.member.value, ctx.guildOwner))
    ensures r != Some(TargetNotInServer) && r != Some(InvalidDuration)
  {
    if target.id == ctx.moderator.id then Some(TargetIsSelf)
    else if target.id == ctx.botId then Some(TargetIsBot)
    else if target.id == ctx.guildOwner then Some(TargetIsOwner)
    else if banList.Some? && target.id in banList.value then Some(AlreadyBanned)
    else if target.member.Some? && !CanModerate(ctx.cfg, ctx.moderator, target.member.value, ctx.guildOwner)
    then Some(Hierarchy)
    else None
  }

  /** `/kick`: self, bot, owner; then the target must be a cached member the moderator outranks. */
  function KickCheck(ctx: Context, target: Target): (r: Option<Refusal>)
    ensures r == Some(TargetIsSelf) <==> target.id == ctx.moderator.id
    ensures r.None? <==>
      target.id != ctx.moderator.id && target.id != ctx.botId && target.id != ctx.guildOwner &&
      target.member.Some? && CanModerate(ctx.cfg, ctx.moderator, target.member.value, ctx.guildOwner)
    ensures r == Some(TargetNotInServer) ==> target.member.None?
    ensures r != Some(AlreadyBanned) && r != Some(InvalidDuration)
  {
    if target.id == ctx.moderator.id then Some(TargetIsSelf)
    else if target.id == ctx.botId then Some(TargetIsBot)
    else if target.id == ctx.guildOwner then Some(TargetIsOwner)
    else if target.member.None? then Some(TargetNotInServer)
    else if !CanModerate(ctx.cfg, ctx.moderator, target.member.value, ctx.guildOwner) then Some(Hierarchy)
    else None
  }

  /** `/warn`: like `/kick` but without its own owner guard (the hierarchy check covers the owner). */
  function WarnCheck(ctx: Context, target: Target): (r: Option<Refusal>)
    ensures r == Some(TargetIsSelf) <==> target.id == ctx.moderator.id
    ensures r.None? <==>
      target.id != ctx.moderator.id && target.id != ctx.botId &&
      target.member.Some? && CanModerate(ctx.cfg, ctx.moderator, target.member.value, ctx.guildOwner)
    ensures r != Some(TargetIsOwner) && r != Some(AlreadyBanned) && r != Some(InvalidDuration)
  {
    if target.id == ctx.moderator.id then Some(TargetIsSelf)
    else if target.id == ctx.botId then Some(TargetIsBot)
    else if target.member.None? then Some(TargetNotInServer)
    else if !CanModerate(ctx.cfg, ctx.moderator, target.member.value, ctx.guildOwner) then Some(Hierarchy)
    else None
  }

  /** `/mute`: the `/warn` guards, then the parsed duration must lie between one minute and 28 days. */
  function MuteCheck(ctx: Context, target: Target, durationMs: nat): (r: Option<Refusal>)
    ensures r.None? <==> WarnCheck(ctx, target).None? && InWindow(durationMs)
    ensures r == Some(InvalidDuration) <==> WarnCheck(ctx, target).None? && !InWindow(durationMs)
    ensures r.None? ==> 60000 <= durationMs <= 2419200000
  {
    var w := WarnCheck(ctx, target);
    if w.Some? then w
    else if !InWindow(durationMs) then Some(InvalidDuration)
    else None
  }

  /** Whoever may be warned may be kicked and the other way round; only the refusal may differ. */
  lemma KickAndWarnAgree(ctx: Context, target: Target)
    requires Consistent(target)
    ensures KickCheck(ctx, target).None? <==> WarnCheck(ctx, target).None?
  {
    if target.member.Some? && target.id == ctx.guildOwner {
      CanModerateExcludes(ctx.cfg, ctx.moderator, target.member.value, ctx.guildOwner);
    }
  }

  /** The guild owner is never warned or muted, even though neither command names the owner. */
  lemma OwnerIsNeverWarnedOrMuted(ctx: Context, target: Target, durationMs: nat)
    requires Consistent(target) && target.id == ctx.guildOwner
    ensures WarnCheck(ctx, target).Some? && MuteCheck(ctx, target, durationMs).Some?
  {
    if target.member.Some? {
      CanModerateExcludes(ctx.cfg, ctx.moderator, target.member.value, ctx.guildOwner);
    }
  }

  /**
   * `/ban` is the most permissive guard: whoever may be kicked may be banned unless already banned,
   * and a user outside the member cache is banned without any hierarchy check.
   */
  lemma BanIsMostPermissive(ctx: Context, target: Target, banList: Option<set<Id>>)
    ensures KickCheck(ctx, target).None? && (banList.Some? ==> target.id !in banList.value) ==>
      BanCheck(ctx, target, banList).None?
    ensures target.member.None? && banList.None? ==>
              (BanCheck(ctx, target, banList).None? <==>
                 target.id != ctx.moderator.id && target.id != ctx.botId && target.id != ctx.guildOwner)
    ensures target.member.None? ==> KickCheck(ctx, target).Some?
  {
  }

  /** A passing guard means the moderator strictly outranks the cached target and is a moderator. */
  lemma PassingGuardOutranks(ctx: Context, target: Target, banList: Option<set<Id>>)
    requires target.member.Some?
    requires BanCheck(ctx, target, banList).None? || KickCheck(ctx, target).None? || WarnCheck(ctx, target).None?
    ensures ctx.moderator.highestPosition > target.member.value.highestPosition
    ensures IsModerator(ctx.cfg, ctx.moderator)
  {
    CanModerateExactly(ctx.cfg, ctx.moderator, target.member.value, ctx.guildOwner);
  }

  // ---------------------------------------------------------------- the commands

  /** The request each command makes of the platform once its guards pass. */
  datatype PlatformAction =
    | BanRequest(userId: Id, deleteMessageDays: int)
    | KickRequest(userId: Id)
    | TimeoutRequest(userId: Id, ms: nat)

  /**
   * How a command ends. After the guards, one `try` holds the DM, the action, the reply, the
   * logs-channel post, the DM-failure log and the modlog insert: a throw anywhere skips the rest.
   */
  datatype ModOutcome = Refused(why: Refusal) | ActionFailed | FollowUpFailed | Done

  function ModOutcomeOf(check: Option<Refusal>, actionFails: bool, followUpFails: bool): (o: ModOutcome)
    ensures o.Refused? <==> check.Some?
    ensures o.Refused? ==> o.why == check.value
    ensures o == Done <==> check.None? && !actionFails && !followUpFails
    ensures o == ActionFailed <==> check.None? && actionFails
  {
    if check.Some? then Refused(check.value)
    else if actionFails then ActionFailed
    else if followUpFails then FollowUpFailed
    else Done
  }

  /** `/ban`: the ban is requested once the guards pass; the `banned` row is written only when everything succeeded. */
  method Ban(db: Database, ctx: Context, target: Target, reason: Option<string>, deleteMessages: Option<int>,
             banList: Option<set<Id>>, actionFails: bool, followUpFails: bool, now: int)
    returns (o: ModOutcome, request: Option<PlatformAction>)
    modifies db`modlogs
    ensures o == ModOutcomeOf(BanCheck(ctx, target, banList), actionFails, followUpFails)
    ensures request.Some? <==> BanCheck(ctx, target, banList).None?
    ensures request.Some? ==> request.value == BanRequest(target.id, OrZero(deleteMessages))
    ensures db.modlogs == if o == Done
      then old(db.modlogs) + [ModlogRow(target.id, ctx.moderator.id, "banned", Some(DefaultReason(reason)), None,
                                        ctx.guildId, now, None)]
      else old(db.modlogs)
  {
    var check := BanCheck(ctx, target, banList);
    o := ModOutcomeOf(check, actionFails, followUpFails);
    request := None;
    if check.None? {
      request := Some(BanRequest(target.id, OrZero(deleteMessages)));
      if !actionFails && !followUpFails {
        var _ := db.AddModlog(target.id, ctx.moderator.id, "banned", Some(DefaultReason(reason)), None,
                              ctx.guildId, now, None);
      }
    }
  }

  /** `/kick`: like `/ban`, with the `kicked` row. */
  method Kick(db: Database, ctx: Context, target: Target, reason: Option<string>,
              actionFails: bool, followUpFails: bool, now: int)
    returns (o: ModOutcome, request: Option<PlatformAction>)
    modifies db`modlogs
    ensures o == ModOutcomeOf(KickCheck(ctx, target), actionFails, followUpFails)
    ensures request.Some? <==> KickCheck(ctx, target).None?
    ensures request.Some? ==> request.value == KickRequest(target.id)
    ensures db.modlogs == if o == Done
      then old(db.modlogs) + [ModlogRow(target.id, ctx.moderator.id, "kicked", Some(DefaultReason(reason)), None,
                                        ctx.guildId, now, None)]
      else old(db.modlogs)
  {
    var check := KickCheck(ctx, target);
    o := ModOutcomeOf(check, actionFails, followUpFails);
    request := None;
    if check.None? {
      request := Some(KickRequest(target.id));
      if !actionFails && !followUpFails {
        var _ := db.AddModlog(target.id, ctx.moderator.id, "kicked", Some(DefaultReason(reason)), None,
                              ctx.guildId, now, None);
      }
    }
  }

  /**
   * `/mute`: the duration text is parsed by the same scanner as `/giveaway start`; the timeout lasts
   * the parsed milliseconds, and the row keeps the duration text as typed.
   */
  method Mute(db: Database, ctx: Context, target: Target, duration: string, reason: Option<string>,
              actionFails: bool, followUpFails: bool, now: int)
    returns (o: ModOutcome, request: Option<PlatformAction>)
    modifies db`modlogs
    ensures o == ModOutcomeOf(MuteCheck(ctx, target, Scan(duration, 0)), actionFails, followUpFails)
    ensures request.Some? <==> MuteCheck(ctx, target, Scan(duration, 0)).None?
    ensures request.Some? ==> request.value == TimeoutRequest(target.id, Scan(duration, 0))
    ensures db.modlogs == if o == Done
      then old(db.modlogs) + [ModlogRow(target.id, ctx.moderator.id, "muted", Some(DefaultReason(reason)),
                                        Some(duration), ctx.guildId, now, None)]
      else old(db.modlogs)
  {
    var w := WarnCheck(ctx, target);
    var check := w;
    if w.None? {
      var ms := ParseDuration(duration);
      check := MuteCheck(ctx, target, ms);
    }
    o := ModOutcomeOf(check, actionFails, followUpFails);
    request := None;
    if check.None? {
      request := Some(TimeoutRequest(target.id, Scan(duration, 0)));
      if !actionFails && !followUpFails {
        var _ := db.AddModlog(target.id, ctx.moderator.id, "muted", Some(DefaultReason(reason)), Some(duration),
                              ctx.guildId, now, None);
      }
    }
  }

  /** `/warn`: no platform action; the DM and the posts are the follow-up. The reason option is required. */
  method Warn(db: Database, ctx: Context, target: Target, reason: string, followUpFails: bool, now: int)
    returns (o: ModOutcome)
    modifies db`modlogs
    ensures o == ModOutcomeOf(WarnCheck(ctx, target), false, followUpFails)
    ensures db.modlogs == if o == Done
      then old(db.modlogs) + [ModlogRow(target.id, ctx.moderator.id, "warned", Some(reason), None,
                                        ctx.guildId, now, None)]
      else old(db.modlogs)
  {
    var check := WarnCheck(ctx, target);
    o := ModOutcomeOf(check, false, followUpFails);
    if check.None? && !followUpFails {
      var _ := db.AddModlog(target.id, ctx.moderator.id, "warned", Some(reason), None, ctx.guildId, now, None);
    }
  }

  /** A completed action adds exactly one entry to that user's history in that guild... */
  lemma RecordedActionJoinsHistory(table: seq<ModlogRow>, row: ModlogRow)
    ensures var before := GetModlogs(table, row.userId, row.guildId);
      var after := GetModlogs(table + [row], row.userId, row.guildId);
      row in after && |after| == |before| + 1
  {
    var p := ModlogOf(row.userId, row.guildId);
    assert p(row);
    assert Filter([row], p) == [row] by {
      assert [row][1..] == [];
    }
    FilterAppend(table, [row], p);
    var before := GetModlogs(table, row.userId, row.guildId);
    var after := GetModlogs(table + [row], row.userId, row.guildId);
    assert |after| == |multiset(after)| == |multiset(Filter(table + [row], p))|;
    assert |before| == |multiset(before)| == |multiset(Filter(table, p))|;
  }

  /** ... and leaves every other user's or guild's history exactly as it was. */
  lemma RecordedActionLeavesOthers(table: seq<ModlogRow>, row: ModlogRow, userId: Id, guildId: Id)
    requires row.userId != userId || row.guildId != guildId
    ensures GetModlogs(table + [row], userId, guildId) == GetModlogs(table, userId, guildId)
  {
    var p := ModlogOf(userId, guildId);
    assert !p(row);
    assert Filter([row], p) == [] by {
      assert [row][1..] == [];
    }
    FilterAppend(table, [row], p);
    assert Filter(table + [row], p) == Filter(table, p);
  }

  // ---------------------------------------------------------------- purge

  /** A message of the channel as `/purge` sees it. */
  datatype ChannelMessage = ChannelMessage(id: Id, authorId: Id, pinned: bool)

  /** The fetched messages minus the pinned ones, restricted to the `user` option's author when given. */
  function PurgeSelection(fetched: seq<ChannelMessage>, user: Option<Id>): (sel: seq<ChannelMessage>)
    ensures |sel| <= |fetched|
    ensures forall m :: m in sel <==> m in fetched && !m.pinned && (user.Some? ==> m.authorId == user.value)
    ensures forall m :: multiset(sel)[m] <= multiset(fetched)[m]
  {
    var unpinned := Filter(fetched, (m: ChannelMessage) => !m.pinned);
    if user.Some? then Filter(unpinned, (m: ChannelMessage) => m.authorId == user.value) else unpinned
  }

  /** What `bulkDelete` answered: the number it deleted, or a platform error code. */
  datatype DeleteResult = Deleted(count: nat) | DeleteError(code: int)

  datatype PurgeOutcome =
    | NoMessagesFound(filteredBy: Option<Id>)
    | Purged(deleted: nat)
    | OlderThan14Days
    | PurgeFailed

  /** Error 50034 is the platform's "message older than two weeks". */
  const TooOldCode := 50034

  /**
   * `/purge amount [user]`: fetch the newest `amount` messages (newest first), select, and bulk-delete
   * the selection; an empty selection is refused without a delete request.
   */
  function Purge(channel: seq<ChannelMessage>, amount: int, user: Option<Id>, result: DeleteResult)
    : (r: (seq<ChannelMessage>, PurgeOutcome))
    requires 1 <= amount <= 100
    ensures forall m :: m in r.0 <==> m in Take(channel, amount) && !m.pinned && (user.Some? ==> m.authorId == user.value)
    ensures |r.0| <= amount
    ensures r.1 == NoMessagesFound(user) <==> r.0 == []
    ensures r.1 == OlderThan14Days <==> r.0 != [] && result == DeleteError(TooOldCode)
    ensures r.1.Purged? <==> r.0 != [] && result.Deleted?
    ensures r.1.Purged? ==> r.1.deleted == result.count
  {
    var sel := PurgeSelection(Take(channel, amount), user);
    if sel == [] then ([], NoMessagesFound(user))
    else
      var outcome := match result
        case Deleted(n) => Purged(n)
        case DeleteError(code) => if code == TooOldCode then OlderThan14Days else PurgeFailed;
      (sel, outcome)
  }

  /** Without pins and without the author filter, purge selects exactly the newest `amount` messages, in order. */
  lemma {:induction false} PurgeTakesAllWhenNothingPinned(fetched: seq<ChannelMessage>)
    requires forall i :: 0 <= i < |fetched| ==> !fetched[i].pinned
    ensures PurgeSelection(fetched, None) == fetched
  {
    UnpinnedFilterIsIdentity(fetched);
  }

  lemma {:induction false} UnpinnedFilterIsIdentity(s: seq<ChannelMessage>)
    requires forall i :: 0 <= i < |s| ==> !s[i].pinned
    ensures Filter(s, (m: ChannelMessage) => !m.pinned) == s
    decreases |s|
  {
    if s != [] {
      assert forall i :: 0 <= i < |s[1..]| ==> s[1..][i] == s[i + 1];
      UnpinnedFilterIsIdentity(s[1..]);
      assert s == [s[0]] + s[1..];
    }
  }

  // ---------------------------------------------------------------- modlogs summary

  /** One "🔨 Actions" field: an action and how often it occurs. */
  datatype ActionCount = ActionCount(action: string, count: nat)

  /** The `reduce` step: bump the action's counter, or add it after the existing ones. */
  function Bump(t: seq<ActionCount>, a: string): (r: seq<ActionCount>)
    ensures |r| == |t| || |r| == |t| + 1
    decreases |t|
  {
    if t == [] then [ActionCount(a, 1)]
    else if t[0].action == a then [ActionCount(a, t[0].count + 1)] + t[1..]
    else [t[0]] + Bump(t[1..], a)
  }

  /**
   * `modlogs.reduce(...)` followed by `Object.entries`: one entry per action in first-appearance
   * order, which is the order JavaScript keeps for these non-numeric keys.
   */
  function Tally(logs: seq<ModlogRow>): seq<ActionCount>
    decreases |logs|
  {
    if logs == [] then [] else Bump(Tally(logs[..|logs| - 1]), logs[|logs| - 1].action)
  }

  /** The counter the tally holds for `a`, or 0. */
  function CountIn(t: seq<ActionCount>, a: string): nat
    decreases |t|
  {
    if t == [] then 0 else (if t[0].action == a then t[0].count else 0) + CountIn(t[1..], a)
  }

  function Sum(t: seq<ActionCount>): nat
    decreases |t|
  {
    if t == [] then 0 else t[0].count + Sum(t[1..])
  }

  function IsAction(a: string): ModlogRow -> bool {
    (l: ModlogRow) => l.action == a
  }

  /** How many of the logs record action `a`. */
  function Occurrences(logs: seq<ModlogRow>, a: string): nat {
    |Filter(logs, IsAction(a))|
  }

  predicate DistinctActions(t: seq<ActionCount>) {
    forall i, j :: 0 <= i < j < |t| ==> t[i].action != t[j].action
  }

  /** A bump only adds the bumped action's counter; every other entry is one of the old ones. */
  lemma {:induction false} BumpMembers(t: seq<ActionCount>, a: string)
    ensures forall c :: c in Bump(t, a) ==> c.action == a || c in t
    decreases |t|
  {
    if t != [] && t[0].action != a {
      BumpMembers(t[1..], a);
      var r := Bump(t, a);
      forall c | c in r ensures c.action == a || c in t {
        if c != t[0] {
          assert r[1..] == Bump(t[1..], a);
          assert c in Bump(t[1..], a);
        }
      }
    }
  }

  /** Only an old entry that was already zero can be zero after a bump. */
  lemma {:induction false} BumpPositive(t: seq<ActionCount>, a: string)
    ensures forall i :: 0 <= i < |Bump(t, a)| ==> Bump(t, a)[i].count >= 1 || (i < |t| && t[i].count == 0)
    decreases |t|
  {
    if t != [] && t[0].action != a {
      BumpPositive(t[1..], a);
      var r := Bump(t, a);
      forall i | 0 <= i < |r| ensures r[i].count >= 1 || (i < |t| && t[i].count == 0) {
        if i > 0 {
          assert r[i] == Bump(t[1..], a)[i - 1];
        }
      }
    }
  }

  /** A bump adds one to the total and to the bumped action's counter, and nothing to any other. */
  lemma {:induction false} BumpCounts(t: seq<ActionCount>, a: string)
    requires DistinctActions(t)
    ensures Sum(Bump(t, a)) == Sum(t) + 1
    ensures forall b :: CountIn(Bump(t, a), b) == CountIn(t, b) + (if b == a then 1 else 0)
    decreases |t|
  {
    if t == [] {
    } else if t[0].action == a {
      var r := Bump(t, a);
      assert r[1..] == t[1..];
      assert a !in ActionsOf(t[1..]) by {
        forall k | 0 <= k < |t[1..]| ensures t[1..][k].action != a {
          assert t[1..][k] == t[k + 1];
        }
      }
      CountInAbsent(t[1..], a);
    } else {
      var tail := t[1..];
      assert DistinctActions(tail) by {
        forall i, j | 0 <= i < j < |tail| ensures tail[i].action != tail[j].action {
          assert tail[i] == t[i + 1] && tail[j] == t[j + 1];
        }
      }
      BumpCounts(tail, a);
      assert Bump(t, a)[1..] == Bump(tail, a);
    }
  }

  /** A bump keeps the actions distinct. */
  lemma {:induction false} BumpDistinct(t: seq<ActionCount>, a: string)
    requires DistinctActions(t)
    ensures DistinctActions(Bump(t, a))
    decreases |t|
  {
    if t == [] {
    } else if t[0].action == a {
      var r := Bump(t, a);
      forall i, j | 0 <= i < j < |r| ensures r[i].action != r[j].action {
        if i > 0 {
          assert r[i] == t[i] && r[j] == t[j];
        } else {
          assert r[j] == t[j];
        }
      }
    } else {
      var tail := t[1..];
      assert DistinctActions(tail) by {
        forall i, j | 0 <= i < j < |tail| ensures tail[i].action != tail[j].action {
          assert tail[i] == t[i + 1] && tail[j] == t[j + 1];
        }
      }
      BumpDistinct(tail, a);
      BumpMembers(tail, a);
      var r := Bump(t, a);
      assert r[1..] == Bump(tail, a);
      forall i, j | 0 <= i < j < |r| ensures r[i].action != r[j].action {
        if i == 0 {
          var c := r[j];
          assert c == Bump(tail, a)[j - 1];
          assert c in Bump(tail, a);
          if c.action != a {
            var k :| 0 <= k < |tail| && tail[k] == c;
            assert t[k + 1] == c;
          }
        } else {
          assert r[i] == Bump(tail, a)[i - 1] && r[j] == Bump(tail, a)[j - 1];
        }
      }
    }
  }

  function ActionsOf(t: seq<ActionCount>): set<string> {
    set c | c in t :: c.action
  }

  lemma {:induction false} CountInAbsent(t: seq<ActionCount>, a: string)
    requires a !in ActionsOf(t)
    ensures CountIn(t, a) == 0
    decreases |t|
  {
    if t != [] {
      assert t[0] in t;
      assert ActionsOf(t[1..]) <= ActionsOf(t) by {
        forall x | x in ActionsOf(t[1..]) ensures x in ActionsOf(t) {
          var c :| c in t[1..] && c.action == x;
          assert c in t;
        }
      }
      CountInAbsent(t[1..], a);
    }
  }

  /**
   * The tally is exact: one entry per distinct action, each counter equal to that action's number of
   * rows and at least one, and the counters adding up to the total.
   */
  lemma {:induction false} TallyIsExact(logs: seq<ModlogRow>)
    ensures DistinctActions(Tally(logs))
    ensures Sum(Tally(logs)) == |logs|
    ensures forall a :: CountIn(Tally(logs), a) == Occurrences(logs, a)
    ensures forall c :: c in Tally(logs) ==> c.count >= 1
    decreases |logs|
  {
    if logs != [] {
      var init := logs[..|logs| - 1];
      var last := logs[|logs| - 1];
      TallyIsExact(init);
      BumpCounts(Tally(init), last.action);
      BumpDistinct(Tally(init), last.action);
      BumpPositive(Tally(init), last.action);
      assert logs == init + [last];
      forall a ensures CountIn(Tally(logs), a) == Occurrences(logs, a) {
        FilterAppend(init, [last], IsAction(a));
      }
      var r := Tally(logs);
      forall c | c in r ensures c.count >= 1 {
        var i :| 0 <= i < |r| && r[i] == c;
        if i < |Tally(init)| {
          assert Tally(init)[i] in Tally(init);
        }
      }
    }
  }

  /** One line of "📋 Recent Actions". */
  datatype RecentAction = RecentAction(title: string, duration: Option<string>, moderatorTag: string, reason: string)

  /** `**Action** (duration) - moderator` over `*reason*`; a moderator outside the member cache shows as `Unknown`. */
  function RecentLine(log: ModlogRow, moderatorTags: map<Id, string>): (line: RecentAction)
    ensures line.title == Capitalize(log.action)
    ensures line.duration.Some? <==> log.duration.Some? && log.duration.value != ""
    ensures line.moderatorTag == if log.moderatorId in moderatorTags then moderatorTags[log.moderatorId] else "Unknown"
    ensures line.reason == DefaultReason(log.reason)
  {
    RecentAction(Capitalize(log.action), Truthy(log.duration),
                 if log.moderatorId in moderatorTags then moderatorTags[log.moderatorId] else "Unknown",
                 DefaultReason(log.reason))
  }

  datatype ModlogSummary =
    | NoLogs
    | History(total: nat, firstAt: int, latestAt: int, counts: seq<ActionCount>, recent: seq<RecentAction>)

  /** `/modlogs user` on the rows `getModlogs` returned (newest first). */
  function Summarize(logs: seq<ModlogRow>, moderatorTags: map<Id, string>): (s: ModlogSummary)
    ensures s == NoLogs <==> logs == []
    ensures s.History? ==>
      s.total == |logs| && s.firstAt == logs[|logs| - 1].timestamp && s.latestAt == logs[0].timestamp &&
      s.counts == Tally(logs) && |s.recent| == Min(5, |logs|) &&
      forall i :: 0 <= i < |s.recent| ==> s.recent[i] == RecentLine(logs[i], moderatorTags)
  {
    if logs == [] then NoLogs
    else
      var shown := Take(logs, 5);
      History(|logs|, logs[|logs| - 1].timestamp, logs[0].timestamp, Tally(logs),
              seq(|shown|, i requires 0 <= i < |shown| => RecentLine(shown[i], moderatorTags)))
  }

  /**
   * On a user's stored history the summary is right: "first" and "latest" bound every one of the
   * user's rows in the guild, the counters add up to the total, and each counter is that action's count.
   */
  lemma SummaryOfStoredHistory(table: seq<ModlogRow>, userId: Id, guildId: Id, moderatorTags: map<Id, string>)
    ensures var logs := GetModlogs(table, userId, guildId);
      var s := Summarize(logs, moderatorTags);
      s.History? ==>
        (forall x :: x in table && x.userId == userId && x.guildId == guildId ==>
            s.firstAt <= x.timestamp <= s.latestAt) &&
        Sum(s.counts) == s.total &&
        (forall a :: CountIn(s.counts, a) == Occurrences(logs, a)) &&
        DistinctActions(s.counts)
  {
    var logs := GetModlogs(table, userId, guildId);
    TallyIsExact(logs);
    if logs != [] {
      NewestFirstBounds(logs);
    }
  }

  /** In a newest-first history the first row is the latest and the last row the earliest. */
  lemma NewestFirstBounds(logs: seq<ModlogRow>)
    requires logs != []
    requires forall i, j :: 0 <= i < j < |logs| ==> logs[i].timestamp >= logs[j].timestamp
    ensures forall x :: x in logs ==> logs[|logs| - 1].timestamp <= x.timestamp <= logs[0].timestamp
  {
    forall x | x in logs
      ensures logs[|logs| - 1].timestamp <= x.timestamp <= logs[0].timestamp
    {
      var k :| 0 <= k < |logs| && logs[k] == x;
      if 0 < k {
        assert logs[0].timestamp >= logs[k].timestamp;
      }
      if k < |logs| - 1 {
        assert logs[k].timestamp >= logs[|logs| - 1].timestamp;
      }
    }
  }
}
