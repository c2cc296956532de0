/**
 * The read-mostly economy commands: `/leaderboard` renders the top rows of the guild,
 * `/stats` and `/balance` show one user's row (creating it first when missing) with the
 * achievements, rank, last-daily age and earning tips derived from it.
 */
module EconomyViews {
  import opened Common
  import opened Text
  import opened Store
  import opened Economy

  // ---------------------------------------------------------------- leaderboard

  /** The sum of one column over some rows (`reduce((sum, user) => sum + user.c, 0)`). */
  function SumOf(rows: seq<RacingUser>, c: Column): int
    decreases |rows|
  {
    if rows == [] then 0 else ColumnValue(rows[0], c) + SumOf(rows[1..], c)
  }

  /** Over rows whose column is never negative, the sum is at least every single value. */
  lemma {:induction false} SumBoundsEach(rows: seq<RacingUser>, c: Column)
    requires forall x :: x in rows ==> ColumnValue(x, c) >= 0
    ensures SumOf(rows, c) >= 0
    ensures forall x :: x in rows ==> ColumnValue(x, c) <= SumOf(rows, c)
    decreases |rows|
  {
    if rows != [] {
      assert forall x :: x in rows[1..] ==> x in rows;
      SumBoundsEach(rows[1..], c);
    }
  }

  /** The first three places get a medal, the rest their number. */
  datatype Place = Gold | Silver | Bronze | Numbered(position: nat)

  function PlaceOf(position: nat): (p: Place)
    requires position >= 1
    ensures p == Gold <==> position == 1
    ensures p == Silver <==> position == 2
    ensures p == Bronze <==> position == 3
    ensures p.Numbered? <==> position > 3
    ensures p.Numbered? ==> p.position == position
  {
    if position == 1 then Gold else if position == 2 then Silver else if position == 3 then Bronze
    else Numbered(position)
  }

  /** The text before the mention: a medal, or the position followed by a dot. */
  function PlaceLabel(p: Place): string {
    match p
    case Gold => "🥇"
    case Silver => "🥈"
    case Bronze => "🥉"
    case Numbered(n) => NatStr(n) + "."
  }

  /** A numbered place is labelled by its position and can be read back from that text. */
  lemma PlaceLabelReadsBack(n: nat)
    requires n > 3
    ensures var shown := PlaceLabel(PlaceOf(n));
      shown[|shown| - 1] == '.' && ParseNat(shown[..|shown| - 1]) == n
  {
    var shown := PlaceLabel(PlaceOf(n));
    assert shown[..|shown| - 1] == NatStr(n);
    ParseNatStr(n);
  }

  /** The word after a ranking value. */
  function UnitOf(c: Column): string {
    match c
    case Wins => "wins"
    case TotalRaces => "races"
    case _ => "credits"
  }

  /** One ranking line: the place, whose mention, and the value of the sort column. */
  datatype Entry = Entry(place: Place, userId: Id, value: int)

  datatype LeaderboardReply =
    | EmptyBoard
    | Board(column: Column, limit: nat, entries: seq<Entry>, totalPlayers: nat, totalCredits: int, totalRaces: int)

  /** The three choices the `type` option offers. */
  predicate IsBoardType(sortBy: string) {
    sortBy == "credits" || sortBy == "wins" || sortBy == "total_races"
  }

  /** The sort column and limit a request asks for: `type || 'credits'`, `limit || 10`. */
  function BoardColumn(sortBy: Option<string>): Column {
    SortColumn(Truthy(sortBy).GetOr("credits"))
  }

  function BoardLimit(limit: Option<int>): (n: nat)
    requires limit.Some? ==> 1 <= limit.value <= 20
    ensures 1 <= n <= 20
    ensures n == if limit.Some? then limit.value else 10
  {
    if TruthyInt(limit) then limit.value else 10
  }

  /** The rows `getRacingLeaderboard` returns for a request. */
  function BoardRows(rows: seq<RacingUser>, guildId: Id, sortBy: Option<string>, limit: Option<int>): seq<RacingUser>
    requires limit.Some? ==> 1 <= limit.value <= 20
  {
    GetRacingLeaderboard(rows, guildId, BoardLimit(limit), Truthy(sortBy).GetOr("credits"))
  }

  /** A board of at least one place is empty exactly when the guild has no rows. */
  lemma BoardEmptyIff(rows: seq<RacingUser>, guildId: Id, limit: nat, sortBy: string)
    requires limit >= 1
    ensures GetRacingLeaderboard(rows, guildId, limit, sortBy) == [] <==> forall x :: x in rows ==> x.guildId != guildId
  {
  }

  /** The ranking lines, one per row, numbered from 1. */
  function Entries(board: seq<RacingUser>, col: Column): (e: seq<Entry>)
    ensures |e| == |board|
    ensures forall i :: 0 <= i < |e| ==> e[i] == Entry(PlaceOf(i + 1), board[i].userId, ColumnValue(board[i], col))
  {
    seq(|board|, i requires 0 <= i < |board| => Entry(PlaceOf(i + 1), board[i].userId, ColumnValue(board[i], col)))
  }

  /** `/leaderboard`: an error without rows, else one line per returned row and the totals over them. */
  function Leaderboard(rows: seq<RacingUser>, guildId: Id, sortBy: Option<string>, limit: Option<int>)
    : (r: LeaderboardReply)
    requires sortBy.Some? ==> IsBoardType(sortBy.value)
    requires limit.Some? ==> 1 <= limit.value <= 20
    ensures r.EmptyBoard? <==> forall x :: x in rows ==> x.guildId != guildId
  {
    var board := BoardRows(rows, guildId, sortBy, limit);
    BoardEmptyIff(rows, guildId, BoardLimit(limit), Truthy(sortBy).GetOr("credits"));
    if board == [] then EmptyBoard
    else Board(BoardColumn(sortBy), BoardLimit(limit), Entries(board, BoardColumn(sortBy)), |board|,
               SumOf(board, Credits), SumOf(board, TotalRaces))
  }

  /**
   * The board answers the request: the column it names (credits by default), the limit it names
   * (10 by default), and one line per returned row carrying its place, user and value, every
   * returned row being a row of the guild.
   */
  lemma LeaderboardLines(rows: seq<RacingUser>, guildId: Id, sortBy: Option<string>, limit: Option<int>)
    requires sortBy.Some? ==> IsBoardType(sortBy.value)
    requires limit.Some? ==> 1 <= limit.value <= 20
    requires Leaderboard(rows, guildId, sortBy, limit).Board?
    ensures var r := Leaderboard(rows, guildId, sortBy, limit);
      var board := BoardRows(rows, guildId, sortBy, limit);
      r.column == (if sortBy.None? || sortBy.value == "credits" then Credits
                   else if sortBy.value == "wins" then Wins else TotalRaces) &&
      r.limit == (if limit.Some? then limit.value else 10) &&
      r.totalPlayers == |r.entries| == |board| && 1 <= |board| <= r.limit &&
      forall i :: 0 <= i < |r.entries| ==>
        r.entries[i].place == PlaceOf(i + 1) && r.entries[i].userId == board[i].userId &&
        r.entries[i].value == ColumnValue(board[i], r.column) && board[i] in rows && board[i].guildId == guildId
  {
    var board := BoardRows(rows, guildId, sortBy, limit);
    forall i | 0 <= i < |board| ensures board[i] in rows && board[i].guildId == guildId {
      assert board[i] in board;
    }
  }

  /**
   * The lines run best first; a guild row is left out only when the board is full of rows at
   * least as good; and the totals count the listed rows only.
   */
  lemma LeaderboardRanks(rows: seq<RacingUser>, guildId: Id, sortBy: Option<string>, limit: Option<int>)
    requires sortBy.Some? ==> IsBoardType(sortBy.value)
    requires limit.Some? ==> 1 <= limit.value <= 20
    requires Leaderboard(rows, guildId, sortBy, limit).Board?
    ensures var r := Leaderboard(rows, guildId, sortBy, limit);
      var board := BoardRows(rows, guildId, sortBy, limit);
      (forall i, j :: 0 <= i < j < |r.entries| ==> r.entries[i].value >= r.entries[j].value) &&
      (forall y :: y in rows && y.guildId == guildId && y !in board ==>
         |board| == r.limit && forall i :: 0 <= i < |r.entries| ==> ColumnValue(y, r.column) <= r.entries[i].value) &&
      r.totalCredits == SumOf(board, Credits) && r.totalRaces == SumOf(board, TotalRaces)
  {
    var board := BoardRows(rows, guildId, sortBy, limit);
    var col := BoardColumn(sortBy);
    BoardOrder(board, col, Truthy(sortBy).GetOr("credits"));
    forall y | y in rows && y.guildId == guildId && y !in board
      ensures |board| == BoardLimit(limit) && forall i :: 0 <= i < |board| ==> ColumnValue(y, col) <= ColumnValue(board[i], col)
    {
      BoardCutoff(rows, guildId, BoardLimit(limit), Truthy(sortBy).GetOr("credits"), y);
    }
  }

  /** Rows sorted on a column give lines whose values run best first. */
  lemma BoardOrder(board: seq<RacingUser>, col: Column, sortBy: string)
    requires col == SortColumn(sortBy)
    requires forall i, j :: 0 <= i < j < |board| ==> ColumnValue(board[i], SortColumn(sortBy)) >= ColumnValue(board[j], SortColumn(sortBy))
    ensures var e := Entries(board, col);
      forall i, j :: 0 <= i < j < |e| ==> e[i].value >= e[j].value
  {
  }

  /** A guild row left off the board faces a full board of rows at least as good. */
  lemma BoardCutoff(rows: seq<RacingUser>, guildId: Id, limit: nat, sortBy: string, y: RacingUser)
    requires y in rows && y.guildId == guildId && y !in GetRacingLeaderboard(rows, guildId, limit, sortBy)
    ensures var board := GetRacingLeaderboard(rows, guildId, limit, sortBy);
      |board| == limit && forall i :: 0 <= i < |board| ==> ColumnValue(y, SortColumn(sortBy)) <= ColumnValue(board[i], SortColumn(sortBy))
  {
    var board := GetRacingLeaderboard(rows, guildId, limit, sortBy);
    forall i | 0 <= i < |board|
      ensures ColumnValue(y, SortColumn(sortBy)) <= ColumnValue(board[i], SortColumn(sortBy))
    {
      assert board[i] in board;
    }
  }

  /** In a sound table every listed balance is part of the credit total, which is never negative. */
  lemma LeaderboardTotalsBound(rows: seq<RacingUser>, guildId: Id, sortBy: Option<string>, limit: Option<int>)
    requires sortBy.Some? ==> IsBoardType(sortBy.value)
    requires limit.Some? ==> 1 <= limit.value <= 20
    requires Sound(rows)
    requires Leaderboard(rows, guildId, sortBy, limit).Board?
    ensures var r := Leaderboard(rows, guildId, sortBy, limit);
      var board := BoardRows(rows, guildId, sortBy, limit);
      r.totalCredits >= 0 && forall x :: x in board ==> x.credits <= r.totalCredits
  {
    var board := BoardRows(rows, guildId, sortBy, limit);
    forall x | x in board ensures ColumnValue(x, Credits) >= 0 {
      var i :| 0 <= i < |rows| && rows[i] == x;
      assert SoundRow(rows[i]);
    }
    SumBoundsEach(board, Credits);
  }

  // ---------------------------------------------------------------- stats

  /** The achievements `/stats` can list, leaving out the one that rests on the win rate. */
  datatype Achievement =
    | RacingVeteran | RacingChampion | RacingLegend | HighRoller | CreditKing
    | StreakMaster | DailyDevotee

  const AchievementCount := 7

  /** The order in which `/stats` considers them. */
  function AchievementAt(k: nat): Achievement
    requires k < AchievementCount
  {
    match k
    case 0 => RacingVeteran
    case 1 => RacingChampion
    case 2 => RacingLegend
    case 3 => HighRoller
    case 4 => CreditKing
    case 5 => StreakMaster
    case _ => DailyDevotee
  }

  /** Where an achievement stands in that order: each one has exactly one place. */
  function PositionOf(a: Achievement): (k: nat)
    ensures k < AchievementCount && AchievementAt(k) == a
    ensures forall j :: 0 <= j < AchievementCount && AchievementAt(j) == a ==> j == k
  {
    match a
    case RacingVeteran => 0
    case RacingChampion => 1
    case RacingLegend => 2
    case HighRoller => 3
    case CreditKing => 4
    case StreakMaster => 5
    case DailyDevotee => 6
  }

  /** The threshold each achievement demands. */
  predicate Earned(a: Achievement, x: RacingUser) {
    match a
    case RacingVeteran => x.wins >= 10
    case RacingChampion => x.wins >= 50
    case RacingLegend => x.wins >= 100
    case HighRoller => x.credits >= 10000
    case CreditKing => x.credits >= 50000
    case StreakMaster => x.dailyClaimed >= 7
    case DailyDevotee => x.dailyClaimed >= 30
  }

  /** The achievements among the first `k` in the order that a row has earned, in that order. */
  function EarnedUpTo(k: nat, x: RacingUser): seq<Achievement>
    requires k <= AchievementCount
  {
    if k == 0 then []
    else EarnedUpTo(k - 1, x) + (if Earned(AchievementAt(k - 1), x) then [AchievementAt(k - 1)] else [])
  }

  function EarnedList(x: RacingUser): seq<Achievement> {
    EarnedUpTo(AchievementCount, x)
  }

  /** The `achievements` array, pushed to one threshold at a time. */
  method Achievements(x: RacingUser) returns (list: seq<Achievement>)
    ensures list == EarnedList(x)
  {
    list := [];
    if x.wins >= 10 { list := list + [RacingVeteran]; }
    assert list == EarnedUpTo(1, x);
    if x.wins >= 50 { list := list + [RacingChampion]; }
    assert list == EarnedUpTo(2, x);
    if x.wins >= 100 { list := list + [RacingLegend]; }
    assert list == EarnedUpTo(3, x);
    if x.credits >= 10000 { list := list + [HighRoller]; }
    assert list == EarnedUpTo(4, x);
    if x.credits >= 50000 { list := list + [CreditKing]; }
    assert list == EarnedUpTo(5, x);
    if x.dailyClaimed >= 7 { list := list + [StreakMaster]; }
    assert list == EarnedUpTo(6, x);
    if x.dailyClaimed >= 30 { list := list + [DailyDevotee]; }
  }

  /** An achievement is among the first `k` listed exactly when it stands before `k` and is earned. */
  lemma {:induction false} EarnedUpToMembers(k: nat, x: RacingUser, a: Achievement)
    requires k <= AchievementCount
    ensures a in EarnedUpTo(k, x) <==> PositionOf(a) < k && Earned(a, x)
  {
    if k > 0 {
      EarnedUpToMembers(k - 1, x, a);
    }
  }

  /** An achievement is listed exactly when its threshold is met. */
  lemma EarnedListMeaning(x: RacingUser, a: Achievement)
    ensures a in EarnedList(x) <==> Earned(a, x)
  {
    EarnedUpToMembers(AchievementCount, x, a);
  }

  /** The higher tier of each ladder is listed only together with the lower. */
  lemma EarnedLadders(x: RacingUser)
    ensures RacingLegend in EarnedList(x) ==> RacingChampion in EarnedList(x)
    ensures RacingChampion in EarnedList(x) ==> RacingVeteran in EarnedList(x)
    ensures CreditKing in EarnedList(x) ==> HighRoller in EarnedList(x)
    ensures DailyDevotee in EarnedList(x) ==> StreakMaster in EarnedList(x)
  {
    EarnedListMeaning(x, RacingLegend);
    EarnedListMeaning(x, RacingChampion);
    EarnedListMeaning(x, RacingVeteran);
    EarnedListMeaning(x, CreditKing);
    EarnedListMeaning(x, HighRoller);
    EarnedListMeaning(x, DailyDevotee);
    EarnedListMeaning(x, StreakMaster);
  }

  /** The embed shows the first five earned achievements, in order. */
  function ShownAchievements(x: RacingUser): (shown: seq<Achievement>)
    ensures |shown| == Min(5, |EarnedList(x)|)
    ensures forall i :: 0 <= i < |shown| ==> shown[i] == EarnedList(x)[i]
  {
    Take(EarnedList(x), 5)
  }

  /**
   * With every win and credit threshold met the five shown slots are taken by those, so the
   * daily-streak achievements, however earned, are not shown.
   */
  lemma StreakAchievementsHidden(x: RacingUser)
    requires x.wins >= 100 && x.credits >= 50000
    ensures ShownAchievements(x) == [RacingVeteran, RacingChampion, RacingLegend, HighRoller, CreditKing]
  {
    var top := [RacingVeteran, RacingChampion, RacingLegend, HighRoller, CreditKing];
    assert EarnedUpTo(1, x) == [RacingVeteran];
    assert EarnedUpTo(2, x) == [RacingVeteran, RacingChampion];
    assert EarnedUpTo(3, x) == [RacingVeteran, RacingChampion, RacingLegend];
    assert EarnedUpTo(4, x) == [RacingVeteran, RacingChampion, RacingLegend, HighRoller];
    assert EarnedUpTo(5, x) == top;
    assert EarnedUpTo(6, x)[..5] == top;
    assert EarnedList(x)[..5] == top;
    var shown := ShownAchievements(x);
    assert forall i :: 0 <= i < |shown| ==> shown[i] == top[i];
  }

  /** Whole days since the last claim, rounded down, when there was one (a zero `last_daily` is none). */
  function DaysSinceLastDaily(x: RacingUser, now: int): (d: Option<int>)
    ensures d.Some? <==> x.lastDaily != 0
    ensures d.Some? ==> d.value * OneDay <= now - x.lastDaily < (d.value + 1) * OneDay
  {
    if x.lastDaily != 0 then Some((now - x.lastDaily) / OneDay) else None
  }

  /** `findIndex` by user id. */
  function FindUser(board: seq<RacingUser>, userId: Id): (i: Option<nat>)
    ensures i.Some? ==> i.value < |board| && board[i.value].userId == userId
    decreases |board|
  {
    if board == [] then None
    else if board[0].userId == userId then Some(0)
    else
      var rest := FindUser(board[1..], userId);
      if rest.Some? then Some(rest.value + 1) else None
  }

  /** `findIndex` finds the first matching position, and misses only when there is none. */
  lemma {:induction false} FindUserFirst(board: seq<RacingUser>, userId: Id)
    ensures FindUser(board, userId).None? <==> forall j :: 0 <= j < |board| ==> board[j].userId != userId
    ensures FindUser(board, userId).Some? ==>
      forall j :: 0 <= j < FindUser(board, userId).value ==> board[j].userId != userId
    decreases |board|
  {
    if board != [] && board[0].userId != userId {
      FindUserFirst(board[1..], userId);
      assert forall j :: 1 <= j < |board| ==> board[j] == board[1..][j - 1];
    }
  }

  /** The rank shown: the 1-based position among the top 100 by credits, if listed. */
  function RankOf(rows: seq<RacingUser>, guildId: Id, userId: Id): Option<nat> {
    var board := GetRacingLeaderboard(rows, guildId, 100, "credits");
    var i := FindUser(board, userId);
    if i.Some? then Some(i.value + 1) else None
  }

  datatype StatsReply =
    | StatsError
    | StatsShown(user: RacingUser, achievements: seq<Achievement>, daysSinceLastDaily: Option<int>, rank: Option<nat>)

  /** `/stats` for a target user: the get-or-create step, then the view of the row read. */
  function StatsEffect(rows: seq<RacingUser>, guildId: Id, userId: Id, now: int): (StatsReply, seq<RacingUser>) {
    var r1 := Enrolled(rows, userId, guildId, now);
    var user := GetRacingUser(r1, userId, guildId);
    if user.None? then (StatsError, r1)
    else (StatsShown(user.value, ShownAchievements(user.value), DaysSinceLastDaily(user.value, now),
                     RankOf(r1, guildId, userId)), r1)
  }

  method Stats(db: Database, guildId: Id, userId: Id, now: int) returns (v: StatsReply)
    requires db.Valid()
    modifies db`racingUsers
    ensures db.Valid()
    ensures v == StatsEffect(old(db.racingUsers), guildId, userId, now).0
    ensures db.racingUsers == StatsEffect(old(db.racingUsers), guildId, userId, now).1
  {
    var user := Enrol(db, userId, guildId, now);
    if user.None? {
      return StatsError;
    }
    var earned := Achievements(user.value);
    var days := DaysSinceLastDaily(user.value, now);
    var rank := RankOf(db.racingUsers, guildId, userId);
    v := StatsShown(user.value, Take(earned, 5), days, rank);
  }

  /** The row shown is the stored one or a fresh one, and only that row may have been added. */
  lemma StatsShowsSeenRow(rows: seq<RacingUser>, guildId: Id, userId: Id, now: int)
    ensures var (v, after) := StatsEffect(rows, guildId, userId, now);
      after == Enrolled(rows, userId, guildId, now) &&
      (v.StatsShown? <==> CanEnrol(rows, userId, guildId)) &&
      (v.StatsShown? ==> v.user == SeenRow(rows, userId, guildId, now))
  {
    EnrolmentIs(rows, userId, guildId, now);
  }

  /**
   * A shown rank is the user's 1-based position on the top-100 credits board; an unranked user
   * trails a full board of 100 rows that each hold at least as many credits.
   */
  lemma RankMeaning(rows: seq<RacingUser>, guildId: Id, userId: Id, now: int)
    requires StatsEffect(rows, guildId, userId, now).0.StatsShown?
    ensures var (v, after) := StatsEffect(rows, guildId, userId, now);
      var board := GetRacingLeaderboard(after, guildId, 100, "credits");
      (v.rank.Some? ==>
         1 <= v.rank.value <= |board| <= 100 && board[v.rank.value - 1].userId == userId &&
         forall j :: 0 <= j < v.rank.value - 1 ==> board[j].userId != userId) &&
      (v.rank.None? ==> |board| == 100 && forall x :: x in board ==> v.user.credits <= x.credits)
  {
    var (v, after) := StatsEffect(rows, guildId, userId, now);
    var board := GetRacingLeaderboard(after, guildId, 100, "credits");
    FindUserFirst(board, userId);
    if v.rank.None? {
      GetRacingUserIn(after, userId, guildId);
      assert v.user in after && v.user.guildId == guildId;
      assert forall j :: 0 <= j < |board| ==> board[j] != v.user;
    }
  }

  // ---------------------------------------------------------------- balance

  /** The three earning tips `/balance` can give. */
  datatype Tip = DailyTip | AiRaceTip | WagerTip

  const TipCount := 3

  /** The order in which `/balance` considers them. */
  function TipAt(k: nat): Tip
    requires k < TipCount
  {
    match k
    case 0 => DailyTip
    case 1 => AiRaceTip
    case _ => WagerTip
  }

  predicate TipApplies(t: Tip, x: RacingUser) {
    match t
    case DailyTip => x.credits < 1000
    case AiRaceTip => x.totalRaces < 5
    case WagerTip => x.credits >= 1000
  }

  /** The tips among the first `k` in the order that apply to a row, in that order. */
  function TipsUpTo(k: nat, x: RacingUser): seq<Tip>
    requires k <= TipCount
  {
    if k == 0 then [] else TipsUpTo(k - 1, x) + (if TipApplies(TipAt(k - 1), x) then [TipAt(k - 1)] else [])
  }

  function TipList(x: RacingUser): seq<Tip> {
    TipsUpTo(TipCount, x)
  }

  /** The `suggestions` array, pushed to one rule at a time. */
  method Suggestions(x: RacingUser) returns (tips: seq<Tip>)
    ensures tips == TipList(x)
  {
    tips := [];
    if x.credits < 1000 { tips := tips + [DailyTip]; }
    assert tips == TipsUpTo(1, x);
    if x.totalRaces < 5 { tips := tips + [AiRaceTip]; }
    assert tips == TipsUpTo(2, x);
    if x.credits >= 1000 { tips := tips + [WagerTip]; }
  }

  /**
   * Exactly one of the daily and wager tips appears, chosen by the 1000-credit line; the AI tip
   * appears below five races; so the tips field is never empty.
   */
  lemma TipsMeaning(x: RacingUser)
    ensures DailyTip in TipList(x) <==> x.credits < 1000
    ensures WagerTip in TipList(x) <==> x.credits >= 1000
    ensures AiRaceTip in TipList(x) <==> x.totalRaces < 5
    ensures 1 <= |TipList(x)| <= 2
    ensures TipList(x)[0] == if x.credits < 1000 then DailyTip else if x.totalRaces < 5 then AiRaceTip else WagerTip
  {
    assert TipsUpTo(1, x) == (if x.credits < 1000 then [DailyTip] else []);
    assert TipsUpTo(2, x) == TipsUpTo(1, x) + (if x.totalRaces < 5 then [AiRaceTip] else []);
    assert TipList(x) == TipsUpTo(2, x) + (if x.credits >= 1000 then [WagerTip] else []);
  }

  /** A brand-new row, with 1000 credits and no races, is shown the AI tip and then the wager tip. */
  lemma NewUserTips(userId: Id, guildId: Id, now: int)
    ensures TipList(NewRacingUser(userId, guildId, now)) == [AiRaceTip, WagerTip]
  {
    TipsMeaning(NewRacingUser(userId, guildId, now));
  }

  datatype BalanceReply =
    | BalanceError
    | BalanceShown(credits: int, totalRaces: int, wins: int, losses: int, tips: seq<Tip>)

  /** `/balance` for a target user: the get-or-create step, then the view of the row read. */
  function BalanceEffect(rows: seq<RacingUser>, guildId: Id, userId: Id, now: int): (BalanceReply, seq<RacingUser>) {
    var r1 := Enrolled(rows, userId, guildId, now);
    var user := GetRacingUser(r1, userId, guildId);
    if user.None? then (BalanceError, r1)
    else
      var x := user.value;
      (BalanceShown(x.credits, x.totalRaces, x.wins, x.losses, TipList(x)), r1)
  }

  method Balance(db: Database, guildId: Id, userId: Id, now: int) returns (v: BalanceReply)
    requires db.Valid()
    modifies db`racingUsers
    ensures db.Valid()
    ensures v == BalanceEffect(old(db.racingUsers), guildId, userId, now).0
    ensures db.racingUsers == BalanceEffect(old(db.racingUsers), guildId, userId, now).1
  {
    var user := Enrol(db, userId, guildId, now);
    if user.None? {
      return BalanceError;
    }
    var tips := Suggestions(user.value);
    v := BalanceShown(user.value.credits, user.value.totalRaces, user.value.wins, user.value.losses, tips);
  }

  /** The balance shown is the one every other command reads, and only the target may gain a row. */
  lemma BalanceShowsBalanceOf(rows: seq<RacingUser>, guildId: Id, userId: Id, now: int)
    ensures var (v, after) := BalanceEffect(rows, guildId, userId, now);
      after == Enrolled(rows, userId, guildId, now) &&
      (v.BalanceShown? <==> CanEnrol(rows, userId, guildId)) &&
      (v.BalanceShown? ==> v.credits == BalanceOf(rows, userId, guildId) &&
                           v.tips == TipList(SeenRow(rows, userId, guildId, now)))
  {
    EnrolmentIs(rows, userId, guildId, now);
  }
}
