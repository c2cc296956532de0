/**
 * The bot's SQLite store as in-memory tables. Each table is a field of `Database`; a row's
 * AUTOINCREMENT id is its 1-based position, since no table of the core ever deletes rows.
 * `Date.now()` is the `now` parameter of every operation that stamps a row.
 */
module Store {
  import opened Common

  datatype ModlogRow = ModlogRow(
    userId: Id, moderatorId: Id, action: string, reason: Option<string>,
    duration: Option<string>, guildId: Id, timestamp: int, messageId: Option<Id>)

  datatype GiveawayRow = GiveawayRow(
    messageId: Id, channelId: Id, guildId: Id, prize: string, winners: int,
    endTime: int, creatorId: Id, active: bool, participants: seq<Id>)

  datatype SettingsRow = SettingsRow(
    guildId: Id, banRoles: seq<Id>, autoRoleId: Option<Id>, verifyChannelId: Option<Id>,
    verifyRoleId: Option<Id>, antiRaidEnabled: bool, antiRaidThreshold: int,
    antiRaidTimeframe: int, logChannelId: Option<Id>, createdAt: int, updatedAt: int)

  /** The object handed to `updateGuildSettings`; `None` is a property the caller left out. */
  datatype SettingsPatch = SettingsPatch(
    banRoles: Option<seq<Id>>, autoRoleId: Option<string>, verifyChannelId: Option<string>,
    verifyRoleId: Option<string>, antiRaidEnabled: Option<bool>, antiRaidThreshold: Option<int>,
    antiRaidTimeframe: Option<int>, logChannelId: Option<string>)

  const NoSettings := SettingsPatch(None, None, None, None, None, None, None, None)

  datatype VerificationRow = VerificationRow(
    userId: Id, guildId: Id, verified: bool, verifiedAt: Option<int>, createdAt: int)

  datatype RaidRow = RaidRow(guildId: Id, userId: Id, action: string, timestamp: int, ipHash: Option<string>)

  datatype RacingUser = RacingUser(
    userId: Id, guildId: Id, credits: int, totalRaces: int, wins: int, losses: int,
    dailyClaimed: int, lastDaily: int, createdAt: int, updatedAt: int)

  /** The six columns `updateRacingUser` may set. */
  datatype Column = Credits | TotalRaces | Wins | Losses | DailyClaimed | LastDaily

  /** The object handed to `updateRacingUser`; `None` is an `undefined` property. */
  datatype RacingPatch = RacingPatch(
    credits: Option<int>, totalRaces: Option<int>, wins: Option<int>, losses: Option<int>,
    dailyClaimed: Option<int>, lastDaily: Option<int>)

  const NoRacingChange := RacingPatch(None, None, None, None, None, None)

  datatype RaceRow = RaceRow(
    guildId: Id, racer1Id: Id, racer2Id: Option<Id>, winnerId: Option<Id>,
    creditsWagered: int, raceType: string, timestamp: int)

  // ---------------------------------------------------------------- settings rows

  /**
   * The row `INSERT OR REPLACE` writes: every column comes from the patch or from its
   * default, `created_at` is not in the column list and so takes its default 0.
   */
  function SettingsFromPatch(guildId: Id, p: SettingsPatch, now: int): (r: SettingsRow)
    ensures r.guildId == guildId && r.createdAt == 0 && r.updatedAt == now
    ensures p.banRoles.None? ==> r.banRoles == []
    ensures p.banRoles.Some? ==> r.banRoles == p.banRoles.value
    ensures r.autoRoleId.Some? <==> p.autoRoleId.Some? && p.autoRoleId.value != ""
    ensures r.autoRoleId.Some? ==> r.autoRoleId == p.autoRoleId
    ensures r.verifyChannelId.Some? <==> p.verifyChannelId.Some? && p.verifyChannelId.value != ""
    ensures r.verifyChannelId.Some? ==> r.verifyChannelId == p.verifyChannelId
    ensures r.verifyRoleId.Some? <==> p.verifyRoleId.Some? && p.verifyRoleId.value != ""
    ensures r.verifyRoleId.Some? ==> r.verifyRoleId == p.verifyRoleId
    ensures r.logChannelId.Some? <==> p.logChannelId.Some? && p.logChannelId.value != ""
    ensures r.logChannelId.Some? ==> r.logChannelId == p.logChannelId
    ensures r.antiRaidEnabled <==> p.antiRaidEnabled == Some(true)
    ensures r.antiRaidThreshold == 5 <==> p.antiRaidThreshold in {None, Some(0), Some(5)}
    ensures r.antiRaidThreshold != 5 ==> Some(r.antiRaidThreshold) == p.antiRaidThreshold
    ensures r.antiRaidTimeframe == 60000 <==> p.antiRaidTimeframe in {None, Some(0), Some(60000)}
    ensures r.antiRaidTimeframe != 60000 ==> Some(r.antiRaidTimeframe) == p.antiRaidTimeframe
  {
    SettingsRow(
      guildId,
      p.banRoles.GetOr([]),
      Truthy(p.autoRoleId),
      Truthy(p.verifyChannelId),
      Truthy(p.verifyRoleId),
      p.antiRaidEnabled == Some(true),
      if TruthyInt(p.antiRaidThreshold) then p.antiRaidThreshold.value else 5,
      if TruthyInt(p.antiRaidTimeframe) then p.antiRaidTimeframe.value else 60000,
      Truthy(p.logChannelId),
      0,
      now)
  }

  /** An update that passes nothing stores the all-defaults row, whatever was there before. */
  lemma EmptyPatchIsDefaults(guildId: Id, now: int)
    ensures SettingsFromPatch(guildId, NoSettings, now) ==
      SettingsRow(guildId, [], None, None, None, false, 5, 60000, None, 0, now)
  {
  }

  // ---------------------------------------------------------------- racing rows

  /** A freshly inserted racing user: the column defaults of the table. */
  function NewRacingUser(userId: Id, guildId: Id, now: int): (u: RacingUser)
    ensures u.userId == userId && u.guildId == guildId
    ensures u.credits == 1000
    ensures u.totalRaces == 0 && u.wins == 0 && u.losses == 0
    ensures u.dailyClaimed == 0 && u.lastDaily == 0
    ensures u.createdAt == now && u.updatedAt == now
  {
    RacingUser(userId, guildId, 1000, 0, 0, 0, 0, 0, now, now)
  }

  function ColumnValue(u: RacingUser, c: Column): int {
    match c
    case Credits => u.credits
    case TotalRaces => u.totalRaces
    case Wins => u.wins
    case Losses => u.losses
    case DailyClaimed => u.dailyClaimed
    case LastDaily => u.lastDaily
  }

  function SetColumn(u: RacingUser, c: Column, v: int): (r: RacingUser)
    ensures ColumnValue(r, c) == v
    ensures forall d :: d != c ==> ColumnValue(r, d) == ColumnValue(u, d)
    ensures r.userId == u.userId && r.guildId == u.guildId
    ensures r.createdAt == u.createdAt && r.updatedAt == u.updatedAt
  {
    match c
    case Credits => u.(credits := v)
    case TotalRaces => u.(totalRaces := v)
    case Wins => u.(wins := v)
    case Losses => u.(losses := v)
    case DailyClaimed => u.(dailyClaimed := v)
    case LastDaily => u.(lastDaily := v)
  }

  function PatchValue(p: RacingPatch, c: Column): Option<int> {
    match c
    case Credits => p.credits
    case TotalRaces => p.totalRaces
    case Wins => p.wins
    case Losses => p.losses
    case DailyClaimed => p.dailyClaimed
    case LastDaily => p.lastDaily
  }

  /** The row after `UPDATE racing_users SET <given columns>, updated_at = now`. */
  function ApplyRacingPatch(u: RacingUser, p: RacingPatch, now: int): (r: RacingUser)
    ensures forall c :: ColumnValue(r, c) == PatchValue(p, c).GetOr(ColumnValue(u, c))
    ensures r.userId == u.userId && r.guildId == u.guildId && r.createdAt == u.createdAt
    ensures r.updatedAt == now
  {
    RacingUser(
      u.userId, u.guildId,
      p.credits.GetOr(u.credits), p.totalRaces.GetOr(u.totalRaces), p.wins.GetOr(u.wins),
      p.losses.GetOr(u.losses), p.dailyClaimed.GetOr(u.dailyClaimed), p.lastDaily.GetOr(u.lastDaily),
      u.createdAt, now)
  }

  /** The `SET` list: applies each assignment in order. */
  function ApplySets(u: RacingUser, sets: seq<(Column, int)>): (r: RacingUser)
    ensures r.userId == u.userId && r.guildId == u.guildId
    decreases |sets|
  {
    if sets == [] then u else ApplySets(SetColumn(u, sets[0].0, sets[0].1), sets[1..])
  }

  lemma {:induction false} ApplySetsSnoc(u: RacingUser, sets: seq<(Column, int)>, c: Column, v: int)
    ensures ApplySets(u, sets + [(c, v)]) == SetColumn(ApplySets(u, sets), c, v)
    decreases |sets|
  {
    if sets == [] {
      assert sets + [(c, v)] == [(c, v)];
    } else {
      assert (sets + [(c, v)])[1..] == sets[1..] + [(c, v)];
      ApplySetsSnoc(SetColumn(u, sets[0].0, sets[0].1), sets[1..], c, v);
    }
  }

  /** The sort column of `getRacingLeaderboard`: one of three whitelisted names, else credits. */
  function SortColumn(sortBy: string): (c: Column)
    ensures c in {Credits, Wins, TotalRaces}
    ensures sortBy == "wins" <==> c == Wins
    ensures sortBy == "total_races" <==> c == TotalRaces
  {
    if sortBy == "wins" then Wins else if sortBy == "total_races" then TotalRaces else Credits
  }

  predicate UniqueUserIds(users: seq<RacingUser>) {
    forall i, j :: 0 <= i < j < |users| ==> users[i].userId != users[j].userId
  }

  predicate HasUserId(users: seq<RacingUser>, userId: Id) {
    exists i :: 0 <= i < |users| && users[i].userId == userId
  }

  /** The first row satisfying `p`, as `db.get` returns it. */
  function FirstWhere<T>(s: seq<T>, p: T -> bool): (r: Option<T>)
    ensures r.None? <==> forall i :: 0 <= i < |s| ==> !p(s[i])
    ensures r.Some? ==>
      exists i :: 0 <= i < |s| && s[i] == r.value && p(s[i]) && forall j :: 0 <= j < i ==> !p(s[j])
    decreases |s|
  {
    if s == [] then None
    else if p(s[0]) then Some(s[0])
    else
      var r := FirstWhere(s[1..], p);
      assert forall i :: 0 < i < |s| ==> s[i] == s[1..][i - 1];
      r
  }

  /** Each settings row sits under its own guild id (the table's primary key). */
  predicate SettingsKeyed(settings: map<Id, SettingsRow>) {
    forall g :: g in settings ==> settings[g].guildId == g
  }

  predicate Owns(v: VerificationRow, userId: Id, guildId: Id) {
    v.userId == userId && v.guildId == guildId
  }

  predicate HasRowFor(rows: seq<VerificationRow>, userId: Id, guildId: Id) {
    exists i :: 0 <= i < |rows| && Owns(rows[i], userId, guildId)
  }

  predicate AllVerified(rows: seq<VerificationRow>, userId: Id, guildId: Id) {
    forall i :: 0 <= i < |rows| && Owns(rows[i], userId, guildId) ==> rows[i].verified
  }

  // ---------------------------------------------------------------- queries (read-only statements)

  /** `SELECT * FROM modlogs WHERE user_id AND guild_id ORDER BY timestamp DESC`. */
  /** The `WHERE user_id = ? AND guild_id = ?` of the modlog query. */
  function ModlogOf(userId: Id, guildId: Id): ModlogRow -> bool {
    (m: ModlogRow) => m.userId == userId && m.guildId == guildId
  }

  function GetModlogs(modlogs: seq<ModlogRow>, userId: Id, guildId: Id): (r: seq<ModlogRow>)
    ensures forall x ::
              multiset(r)[x] == if x.userId == userId && x.guildId == guildId then multiset(modlogs)[x] else 0
    ensures forall x :: x in r <==> x in modlogs && x.userId == userId && x.guildId == guildId
    ensures forall i, j :: 0 <= i < j < |r| ==> r[i].timestamp >= r[j].timestamp
  {
    var mine := Filter(modlogs, ModlogOf(userId, guildId));
    var r := SortDesc(mine, (m: ModlogRow) => m.timestamp);
    assert forall x :: x in r <==> x in multiset(r);
    r
  }

  function GetGiveaway(giveaways: seq<GiveawayRow>, messageId: Id): (r: Option<GiveawayRow>)
    ensures r.None? <==> forall i :: 0 <= i < |giveaways| ==> giveaways[i].messageId != messageId
    ensures r.Some? ==> r.value in giveaways && r.value.messageId == messageId
  {
    FirstWhere(giveaways, (g: GiveawayRow) => g.messageId == messageId)
  }

  function GetActiveGiveaways(giveaways: seq<GiveawayRow>, guildId: Id, now: int): (r: seq<GiveawayRow>)
    ensures forall x :: x in r <==> x in giveaways && x.guildId == guildId && x.active && x.endTime > now
    ensures forall x ::
              multiset(r)[x] == if x.guildId == guildId && x.active && x.endTime > now then multiset(giveaways)[x] else 0
  {
    Filter(giveaways, (g: GiveawayRow) => g.guildId == guildId && g.active && g.endTime > now)
  }

  function GetGuildSettings(settings: map<Id, SettingsRow>, guildId: Id): (r: Option<SettingsRow>)
    requires SettingsKeyed(settings)
    ensures r.Some? <==> guildId in settings
    ensures r.Some? ==> r.value.guildId == guildId
  {
    if guildId in settings then Some(settings[guildId]) else None
  }

  /** `row ? row.verified === 1 : false` over the first matching row. */
  function IsUserVerified(verifications: seq<VerificationRow>, userId: Id, guildId: Id): (b: bool)
    ensures b ==>
              exists i :: 0 <= i < |verifications| && Owns(verifications[i], userId, guildId) && verifications[i].verified
    ensures !HasRowFor(verifications, userId, guildId) ==> !b
    ensures AllVerified(verifications, userId, guildId) ==> (b <==> HasRowFor(verifications, userId, guildId))
  {
    var row := FirstWhere(verifications, (v: VerificationRow) => v.userId == userId && v.guildId == guildId);
    row.Some? && row.value.verified
  }

  /** The guild's raid rows of any action stamped strictly after `now - timeframe`. */
  function GetRecentRaidActions(raids: seq<RaidRow>, guildId: Id, timeframe: int, now: int): (r: seq<RaidRow>)
    ensures forall x :: x in r <==> x in raids && x.guildId == guildId && x.timestamp > now - timeframe
    ensures forall x ::
              multiset(r)[x] == if x.guildId == guildId && x.timestamp > now - timeframe then multiset(raids)[x] else 0
  {
    Filter(raids, (x: RaidRow) => x.guildId == guildId && x.timestamp > now - timeframe)
  }

  /** `WHERE user_id = ? AND guild_id = ?`: the first row with both ids; a user registered in another guild is not found. */
  function GetRacingUser(racingUsers: seq<RacingUser>, userId: Id, guildId: Id): (r: Option<RacingUser>)
    ensures r.Some? ==> r.value.userId == userId && r.value.guildId == guildId
    decreases |racingUsers|
  {
    if racingUsers == [] then None
    else if racingUsers[0].userId == userId && racingUsers[0].guildId == guildId then Some(racingUsers[0])
    else GetRacingUser(racingUsers[1..], userId, guildId)
  }

  /** The lookup misses exactly when no row has both ids, and otherwise returns the first row that has them. */
  lemma {:induction false} GetRacingUserFinds(racingUsers: seq<RacingUser>, userId: Id, guildId: Id)
    ensures GetRacingUser(racingUsers, userId, guildId).None? <==>
      forall i :: 0 <= i < |racingUsers| ==> racingUsers[i].userId != userId || racingUsers[i].guildId != guildId
    ensures GetRacingUser(racingUsers, userId, guildId).Some? ==>
      exists i :: 0 <= i < |racingUsers| && racingUsers[i] == GetRacingUser(racingUsers, userId, guildId).value &&
        forall j :: 0 <= j < i ==> racingUsers[j].userId != userId || racingUsers[j].guildId != guildId
    decreases |racingUsers|
  {
    if racingUsers != [] {
      var tail := racingUsers[1..];
      GetRacingUserFinds(tail, userId, guildId);
      assert forall i :: 0 < i < |racingUsers| ==> racingUsers[i] == tail[i - 1];
      if !(racingUsers[0].userId == userId && racingUsers[0].guildId == guildId) && GetRacingUser(tail, userId, guildId).Some? {
        var k :| 0 <= k < |tail| && tail[k] == GetRacingUser(tail, userId, guildId).value &&
          forall j :: 0 <= j < k ==> tail[j].userId != userId || tail[j].guildId != guildId;
        assert racingUsers[k + 1] == tail[k];
      }
    }
  }

  /** A found row is a row of the table. */
  lemma GetRacingUserIn(racingUsers: seq<RacingUser>, userId: Id, guildId: Id)
    ensures GetRacingUser(racingUsers, userId, guildId).Some? ==> GetRacingUser(racingUsers, userId, guildId).value in racingUsers
  {
    GetRacingUserFinds(racingUsers, userId, guildId);
  }

  /** `LIMIT limit` rows of the guild, ordered by the whitelisted column, largest first. */
  function GetRacingLeaderboard(racingUsers: seq<RacingUser>, guildId: Id, limit: nat, sortBy: string): (r: seq<RacingUser>)
    ensures |r| <= limit
    ensures forall x :: x in r ==> x in racingUsers && x.guildId == guildId
    ensures multiset(r) <= multiset(racingUsers)
    ensures forall i, j :: 0 <= i < j < |r| ==>
      ColumnValue(r[i], SortColumn(sortBy)) >= ColumnValue(r[j], SortColumn(sortBy))
    ensures forall y :: y in racingUsers && y.guildId == guildId && y !in r ==>
              |r| == limit && forall x :: x in r ==> ColumnValue(y, SortColumn(sortBy)) <= ColumnValue(x, SortColumn(sortBy))
  {
    var col := SortColumn(sortBy);
    var key := (u: RacingUser) => ColumnValue(u, col);
    var mine := Filter(racingUsers, (u: RacingUser) => u.guildId == guildId);
    var sorted := SortDesc(mine, key);
    assert forall x :: x in sorted <==> x in multiset(sorted);
    var r := Take(sorted, limit);
    assert forall x :: x in r ==> x in sorted;
    TakeSortedTop(sorted, key, limit);
    r
  }

  /** The `SET` list `updateRacingUser` builds, one defined column at a time. */
  method SetClauses(updates: RacingPatch) returns (sets: seq<(Column, int)>)
    ensures sets == SetList(updates)
  {
    sets := [];
    if updates.credits.Some? { sets := sets + [(Credits, updates.credits.value)]; }
    assert sets == SetFor(updates, Credits);
    if updates.totalRaces.Some? { sets := sets + [(TotalRaces, updates.totalRaces.value)]; }
    assert sets == SetFor(updates, Credits) + SetFor(updates, TotalRaces);
    if updates.wins.Some? { sets := sets + [(Wins, updates.wins.value)]; }
    assert sets == SetFor(updates, Credits) + SetFor(updates, TotalRaces) + SetFor(updates, Wins);
    if updates.losses.Some? { sets := sets + [(Losses, updates.losses.value)]; }
    assert sets == SetFor(updates, Credits) + SetFor(updates, TotalRaces) + SetFor(updates, Wins) +
                   SetFor(updates, Losses);
    if updates.dailyClaimed.Some? { sets := sets + [(DailyClaimed, updates.dailyClaimed.value)]; }
    assert sets == SetFor(updates, Credits) + SetFor(updates, TotalRaces) + SetFor(updates, Wins) +
                   SetFor(updates, Losses) + SetFor(updates, DailyClaimed);
    if updates.lastDaily.Some? { sets := sets + [(LastDaily, updates.lastDaily.value)]; }
    assert sets == SetList(updates);
  }

  /** The races table after `updateRace`: race `raceId` (ids count from 1) gets its winner; an unknown id changes nothing. */
  function WithWinner(races: seq<RaceRow>, raceId: int, winnerId: Option<Id>): (r: seq<RaceRow>)
    ensures |r| == |races|
    ensures forall i :: 0 <= i < |r| ==> r[i] == if i == raceId - 1 then races[i].(winnerId := winnerId) else races[i]
  {
    if 1 <= raceId <= |races| then races[raceId - 1 := races[raceId - 1].(winnerId := winnerId)] else races
  }

  /** The racing table after `updateRacingUser`: the patch applies to the rows matching both ids, and only to them. */
  function PatchedUsers(rows: seq<RacingUser>, userId: Id, guildId: Id, p: RacingPatch, now: int): (r: seq<RacingUser>)
    ensures |r| == |rows|
    ensures forall i {:trigger r[i]} :: 0 <= i < |r| ==>
              r[i] == if rows[i].userId == userId && rows[i].guildId == guildId
                      then ApplyRacingPatch(rows[i], p, now) else rows[i]
  {
    seq(|rows|, i requires 0 <= i < |rows| =>
      if rows[i].userId == userId && rows[i].guildId == guildId then ApplyRacingPatch(rows[i], p, now) else rows[i])
  }

  /** The giveaway table after `updateGiveawayParticipants`: only the participants of matching rows change. */
  function WithParticipants(rows: seq<GiveawayRow>, messageId: Id, participants: seq<Id>): (r: seq<GiveawayRow>)
    ensures |r| == |rows|
    ensures forall i {:trigger r[i]} :: 0 <= i < |r| ==>
              r[i] == if rows[i].messageId == messageId then rows[i].(participants := participants) else rows[i]
  {
    seq(|rows|, i requires 0 <= i < |rows| =>
      if rows[i].messageId == messageId then rows[i].(participants := participants) else rows[i])
  }

  /** The giveaway table after `endGiveaway`: only the active flag of matching rows changes, to false. */
  function Deactivated(rows: seq<GiveawayRow>, messageId: Id): (r: seq<GiveawayRow>)
    ensures |r| == |rows|
    ensures forall i {:trigger r[i]} :: 0 <= i < |r| ==>
              r[i] == if rows[i].messageId == messageId then rows[i].(active := false) else rows[i]
  {
    seq(|rows|, i requires 0 <= i < |rows| =>
      if rows[i].messageId == messageId then rows[i].(active := false) else rows[i])
  }

  /** The verification table after `verifyUser`: the user's rows in the guild are flagged, no row is added. */
  function MarkVerified(rows: seq<VerificationRow>, userId: Id, guildId: Id, now: int): (r: seq<VerificationRow>)
    ensures |r| == |rows|
    ensures forall i :: 0 <= i < |r| ==>
              r[i] == if Owns(rows[i], userId, guildId) then rows[i].(verified := true, verifiedAt := Some(now)) else rows[i]
  {
    seq(|rows|, i requires 0 <= i < |rows| =>
      if rows[i].userId == userId && rows[i].guildId == guildId
      then rows[i].(verified := true, verifiedAt := Some(now)) else rows[i])
  }

  /** After `verifyUser` the user counts as verified exactly when a row for them already existed. */
  lemma MarkVerifiedRecords(rows: seq<VerificationRow>, userId: Id, guildId: Id, now: int)
    ensures IsUserVerified(MarkVerified(rows, userId, guildId, now), userId, guildId) <==> HasRowFor(rows, userId, guildId)
  {
    var r := MarkVerified(rows, userId, guildId, now);
    assert AllVerified(r, userId, guildId);
    if HasRowFor(rows, userId, guildId) {
      var i :| 0 <= i < |rows| && Owns(rows[i], userId, guildId);
      assert Owns(r[i], userId, guildId);
    }
  }

  class Database {
    var modlogs: seq<ModlogRow>
    var giveaways: seq<GiveawayRow>
    var settings: map<Id, SettingsRow>
    var verifications: seq<VerificationRow>
    var raids: seq<RaidRow>
    var racingUsers: seq<RacingUser>
    var races: seq<RaceRow>

    /** Keys are respected: settings by guild id, racing users by user id alone. */
    predicate Valid()
      reads this
    {
      SettingsKeyed(settings) && UniqueUserIds(racingUsers)
    }

    constructor()
      ensures Valid()
      ensures modlogs == [] && giveaways == [] && settings == map[] && verifications == []
      ensures raids == [] && racingUsers == [] && races == []
    {
      modlogs, giveaways, settings, verifications := [], [], map[], [];
      raids, racingUsers, races := [], [], [];
    }

    // -------------------------------------------------------------- modlogs

    method AddModlog(userId: Id, moderatorId: Id, action: string, reason: Option<string>,
                     duration: Option<string>, guildId: Id, now: int, messageId: Option<Id>)
      returns (id: nat)
      modifies this`modlogs
      ensures modlogs == old(modlogs) + [ModlogRow(userId, moderatorId, action, reason, duration, guildId, now, messageId)]
      ensures id == |modlogs|
    {
      modlogs := modlogs + [ModlogRow(userId, moderatorId, action, reason, duration, guildId, now, messageId)];
      id := |modlogs|;
    }

    // -------------------------------------------------------------- giveaways

    method CreateGiveaway(messageId: Id, channelId: Id, guildId: Id, prize: string,
                          winners: int, endTime: int, creatorId: Id)
      returns (id: nat)
      modifies this`giveaways
      ensures giveaways == old(giveaways) +
        [GiveawayRow(messageId, channelId, guildId, prize, winners, endTime, creatorId, true, [])]
      ensures id == |giveaways|
    {
      giveaways := giveaways + [GiveawayRow(messageId, channelId, guildId, prize, winners, endTime, creatorId, true, [])];
      id := |giveaways|;
    }

    /** `UPDATE giveaways SET participants = ? WHERE message_id = ?`. */
    method UpdateGiveawayParticipants(messageId: Id, participants: seq<Id>)
      modifies this`giveaways
      ensures giveaways == WithParticipants(old(giveaways), messageId, participants)
    {
      var rows := giveaways;
      giveaways := seq(|rows|, i requires 0 <= i < |rows| =>
        if rows[i].messageId == messageId then rows[i].(participants := participants) else rows[i]);
    }

    /** `UPDATE giveaways SET active = 0 WHERE message_id = ?`. */
    method EndGiveaway(messageId: Id)
      modifies this`giveaways
      ensures giveaways == Deactivated(old(giveaways), messageId)
    {
      var rows := giveaways;
      giveaways := seq(|rows|, i requires 0 <= i < |rows| =>
        if rows[i].messageId == messageId then rows[i].(active := false) else rows[i]);
    }

    // -------------------------------------------------------------- guild settings

    /** `INSERT OR REPLACE`: the guild's row becomes the patch with defaults, nothing of the old row survives. */
    method UpdateGuildSettings(guildId: Id, patch: SettingsPatch, now: int)
      requires Valid()
      modifies this`settings
      ensures Valid()
      ensures settings == old(settings)[guildId := SettingsFromPatch(guildId, patch, now)]
    {
      settings := settings[guildId := SettingsFromPatch(guildId, patch, now)];
    }

    // -------------------------------------------------------------- verifications

    method CreateVerification(userId: Id, guildId: Id, now: int) returns (id: nat)
      modifies this`verifications
      ensures verifications == old(verifications) + [VerificationRow(userId, guildId, false, None, now)]
      ensures id == |verifications|
    {
      verifications := verifications + [VerificationRow(userId, guildId, false, None, now)];
      id := |verifications|;
    }

    /** `UPDATE verifications SET verified = 1, verified_at = now`: changes existing rows only. */
    method VerifyUser(userId: Id, guildId: Id, now: int)
      modifies this`verifications
      ensures verifications == MarkVerified(old(verifications), userId, guildId, now)
    {
      var rows := verifications;
      verifications := seq(|rows|, i requires 0 <= i < |rows| =>
        if rows[i].userId == userId && rows[i].guildId == guildId
        then rows[i].(verified := true, verifiedAt := Some(now)) else rows[i]);
    }

    // -------------------------------------------------------------- raid protection

    method LogRaidAction(guildId: Id, userId: Id, action: string, now: int, ipHash: Option<string>)
      returns (id: nat)
      modifies this`raids
      ensures raids == old(raids) + [RaidRow(guildId, userId, action, now, ipHash)]
      ensures id == |raids|
    {
      raids := raids + [RaidRow(guildId, userId, action, now, ipHash)];
      id := |raids|;
    }

    // -------------------------------------------------------------- racing economy

    /** The insert fails with a primary-key violation when the user id exists in any guild. */
    method CreateRacingUser(userId: Id, guildId: Id, now: int) returns (ok: bool)
      requires Valid()
      modifies this`racingUsers
      ensures Valid()
      ensures ok <==> !HasUserId(old(racingUsers), userId)
      ensures ok ==> racingUsers == old(racingUsers) + [NewRacingUser(userId, guildId, now)]
      ensures !ok ==> racingUsers == old(racingUsers)
    {
      if HasUserId(racingUsers, userId) {
        ok := false;
      } else {
        racingUsers := racingUsers + [NewRacingUser(userId, guildId, now)];
        ok := true;
      }
    }

    /**
     * Builds the `SET` list one defined column at a time, then applies it (with `updated_at`)
     * to the rows matching both ids.
     */
    method UpdateRacingUser(userId: Id, guildId: Id, updates: RacingPatch, now: int)
      requires Valid()
      modifies this`racingUsers
      ensures Valid()
      ensures racingUsers == PatchedUsers(old(racingUsers), userId, guildId, updates, now)
    {
      var sets := SetClauses(updates);
      var rows := racingUsers;
      racingUsers := seq(|rows|, i requires 0 <= i < |rows| =>
        if rows[i].userId == userId && rows[i].guildId == guildId
        then ApplySets(rows[i], sets).(updatedAt := now) else rows[i]);
      forall i | 0 <= i < |rows| && rows[i].userId == userId && rows[i].guildId == guildId
        ensures racingUsers[i] == ApplyRacingPatch(rows[i], updates, now)
      {
        SetListApplies(rows[i], updates);
      }
      assert racingUsers == PatchedUsers(rows, userId, guildId, updates, now);
    }

    method CreateRace(guildId: Id, racer1Id: Id, racer2Id: Option<Id>, raceType: string,
                      creditsWagered: int, now: int)
      returns (id: nat)
      modifies this`races
      ensures races == old(races) + [RaceRow(guildId, racer1Id, racer2Id, None, creditsWagered, raceType, now)]
      ensures id == |races|
    {
      races := races + [RaceRow(guildId, racer1Id, racer2Id, None, creditsWagered, raceType, now)];
      id := |races|;
    }

    /** `UPDATE racing_races SET winner_id = ? WHERE id = ?`; an unknown id changes nothing. */
    method UpdateRace(raceId: int, winnerId: Option<Id>)
      modifies this`races
      ensures races == WithWinner(old(races), raceId, winnerId)
    {
      if 1 <= raceId <= |races| {
        races := races[raceId - 1 := races[raceId - 1].(winnerId := winnerId)];
      }
    }
  }

  /** The `SET` assignment for one column, present only when the patch defines that column. */
  function SetFor(p: RacingPatch, c: Column): seq<(Column, int)> {
    if PatchValue(p, c).Some? then [(c, PatchValue(p, c).value)] else []
  }

  /** The `SET` list `updateRacingUser` builds: the defined columns in declaration order. */
  function SetList(p: RacingPatch): seq<(Column, int)> {
    SetFor(p, Credits) + SetFor(p, TotalRaces) + SetFor(p, Wins) +
    SetFor(p, Losses) + SetFor(p, DailyClaimed) + SetFor(p, LastDaily)
  }

  /** Applying the optional assignment for `c`. */
  function StepFor(u: RacingUser, p: RacingPatch, c: Column): (r: RacingUser)
    ensures ColumnValue(r, c) == PatchValue(p, c).GetOr(ColumnValue(u, c))
    ensures forall d :: d != c ==> ColumnValue(r, d) == ColumnValue(u, d)
    ensures r.userId == u.userId && r.guildId == u.guildId
    ensures r.createdAt == u.createdAt && r.updatedAt == u.updatedAt
  {
    if PatchValue(p, c).Some? then SetColumn(u, c, PatchValue(p, c).value) else u
  }

  lemma ApplySetFor(u: RacingUser, sets: seq<(Column, int)>, p: RacingPatch, c: Column)
    ensures ApplySets(u, sets + SetFor(p, c)) == StepFor(ApplySets(u, sets), p, c)
  {
    if PatchValue(p, c).Some? {
      ApplySetsSnoc(u, sets, c, PatchValue(p, c).value);
    } else {
      assert sets + SetFor(p, c) == sets;
    }
  }

  /** Two rows agreeing on every column and on the four fixed fields are equal. */
  lemma RowsByColumns(a: RacingUser, b: RacingUser)
    requires forall c :: ColumnValue(a, c) == ColumnValue(b, c)
    requires a.userId == b.userId && a.guildId == b.guildId
    requires a.createdAt == b.createdAt && a.updatedAt == b.updatedAt
    ensures a == b
  {
    assert ColumnValue(a, Credits) == ColumnValue(b, Credits);
    assert ColumnValue(a, TotalRaces) == ColumnValue(b, TotalRaces);
    assert ColumnValue(a, Wins) == ColumnValue(b, Wins);
    assert ColumnValue(a, Losses) == ColumnValue(b, Losses);
    assert ColumnValue(a, DailyClaimed) == ColumnValue(b, DailyClaimed);
    assert ColumnValue(a, LastDaily) == ColumnValue(b, LastDaily);
  }

  /** Running the built `SET` list sets exactly the defined columns. */
  lemma SetListApplies(u: RacingUser, p: RacingPatch)
    ensures ApplySets(u, SetList(p)) == ApplyRacingPatch(u, p, u.updatedAt)
  {
    var e: seq<(Column, int)> := [];
    var s1 := e + SetFor(p, Credits);
    var s2 := s1 + SetFor(p, TotalRaces);
    var s3 := s2 + SetFor(p, Wins);
    var s4 := s3 + SetFor(p, Losses);
    var s5 := s4 + SetFor(p, DailyClaimed);
    var s6 := s5 + SetFor(p, LastDaily);
    assert s6 == SetList(p);
    var u1 := StepFor(u, p, Credits);
    var u2 := StepFor(u1, p, TotalRaces);
    var u3 := StepFor(u2, p, Wins);
    var u4 := StepFor(u3, p, Losses);
    var u5 := StepFor(u4, p, DailyClaimed);
    var u6 := StepFor(u5, p, LastDaily);
    assert ApplySets(u, e) == u;
    ApplySetFor(u, e, p, Credits);
    ApplySetFor(u, s1, p, TotalRaces);
    ApplySetFor(u, s2, p, Wins);
    ApplySetFor(u, s3, p, Losses);
    ApplySetFor(u, s4, p, DailyClaimed);
    ApplySetFor(u, s5, p, LastDaily);
    var want := ApplyRacingPatch(u, p, u.updatedAt);
    forall c
      ensures ColumnValue(u6, c) == ColumnValue(want, c)
    {
    }
    RowsByColumns(u6, want);
  }
}
