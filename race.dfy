/**
 * `/race player` and `/race ai`. The caller's racing row is fetched or created before the
 * subcommand is looked at, so even a refused race can create it. The random draws (who wins and
 * the reward roll) are parameters: `userWins` stands for `Math.random() < 0.5` against a player and
 * `Math.random() < 0.6` against the AI, `roll` for `Math.floor(Math.random() * 400)` or `* 200`.
 */
module Racing {
  import opened Common
  import opened Store
  import opened Economy

  /** The fixed part of the reward; the random part `roll` is a parameter (0..399 for players, 0..199 against the AI). */
  const PlayerBase := 100
  const AiBase := 50
  const AiWinnerId := "ai"

  /** The subcommand with its options, as the platform delivers them. */
  datatype RaceCommand =
    | PlayerRaceCmd(opponentId: Id, opponentIsBot: bool, wager: Option<int>)
    | AiRaceCmd(wager: Option<int>)
    | OtherSubcommand

  datatype RaceOutcome =
    | NoReply
    | CannotRaceSelf
    | CannotRaceBot
    | WagerTooHigh(have: int)
    | OpponentLacksCredits(have: int)
    | RaceError
    | PlayerRaceFinished(raceId: nat, winnerId: Id, creditsWon: int)
      /** `creditsChange` is the shown `+reward` or `-wager`. */
    | AiRaceFinished(raceId: nat, playerWins: bool, creditsChange: int)

  /** The outcome with both tables afterwards. */
  datatype RaceResult = RaceResult(outcome: RaceOutcome, users: seq<RacingUser>, races: seq<RaceRow>)

  /** The winner's write: the prize on the balance read, one more race and one more win. */
  function WinPatch(x: RacingUser, prize: int): RacingPatch {
    NoRacingChange.(credits := Some(x.credits + prize), totalRaces := Some(x.totalRaces + 1), wins := Some(x.wins + 1))
  }

  /** The loser's write: the wager off the balance read, one more race and one more loss. */
  function LossPatch(x: RacingUser, wager: int): RacingPatch {
    NoRacingChange.(credits := Some(x.credits - wager), totalRaces := Some(x.totalRaces + 1), losses := Some(x.losses + 1))
  }

  lemma WinPatched(x: RacingUser, prize: int, now: int)
    ensures ApplyRacingPatch(x, WinPatch(x, prize), now) ==
      x.(credits := x.credits + prize, totalRaces := x.totalRaces + 1, wins := x.wins + 1, updatedAt := now)
  {
    var y := ApplyRacingPatch(x, WinPatch(x, prize), now);
    assert ColumnValue(y, Credits) == x.credits + prize && ColumnValue(y, TotalRaces) == x.totalRaces + 1;
    assert ColumnValue(y, Wins) == x.wins + 1 && ColumnValue(y, Losses) == x.losses;
    assert ColumnValue(y, DailyClaimed) == x.dailyClaimed && ColumnValue(y, LastDaily) == x.lastDaily;
  }

  lemma LossPatched(x: RacingUser, wager: int, now: int)
    ensures ApplyRacingPatch(x, LossPatch(x, wager), now) ==
      x.(credits := x.credits - wager, totalRaces := x.totalRaces + 1, losses := x.losses + 1, updatedAt := now)
  {
    var y := ApplyRacingPatch(x, LossPatch(x, wager), now);
    assert ColumnValue(y, Credits) == x.credits - wager && ColumnValue(y, TotalRaces) == x.totalRaces + 1;
    assert ColumnValue(y, Wins) == x.wins && ColumnValue(y, Losses) == x.losses + 1;
    assert ColumnValue(y, DailyClaimed) == x.dailyClaimed && ColumnValue(y, LastDaily) == x.lastDaily;
  }

  /** The row `createRace` inserts; the winner is filled in afterwards. */
  function NewRace(guildId: Id, racer1Id: Id, racer2Id: Option<Id>, raceType: string, wager: int, now: int): RaceRow {
    RaceRow(guildId, racer1Id, racer2Id, None, wager, raceType, now)
  }

  // ---------------------------------------------------------------- the specification

  /**
   * `/race`: the caller's get-or-create step, then the subcommand. An insert refused for a taken
   * user id throws before the subcommand is read, so every subcommand then ends in the error reply.
   */
  function RaceEffect(users: seq<RacingUser>, races: seq<RaceRow>, guildId: Id, userId: Id, cmd: RaceCommand,
                      userWins: bool, roll: int, now: int): RaceResult
  {
    var r1 := Enrolled(users, userId, guildId, now);
    var user := GetRacingUser(r1, userId, guildId);
    if user.None? then RaceResult(RaceError, r1, races)
    else match cmd
    case PlayerRaceCmd(opponentId, opponentIsBot, wager) =>
      PlayerRace(r1, races, guildId, userId, user.value, opponentId, opponentIsBot, OrZero(wager), userWins, roll, now)
    case AiRaceCmd(wager) => AiRace(r1, races, guildId, userId, user.value, OrZero(wager), userWins, roll, now)
    case OtherSubcommand => RaceResult(NoReply, r1, races)
  }

  /** `/race player`: the opponent checks, the caller's balance, then the opponent's get-or-create. */
  function PlayerRace(r1: seq<RacingUser>, races: seq<RaceRow>, guildId: Id, userId: Id, user: RacingUser,
                      opponentId: Id, opponentIsBot: bool, wager: int, userWins: bool, roll: int, now: int): RaceResult
  {
    if opponentId == userId then RaceResult(CannotRaceSelf, r1, races)
    else if opponentIsBot then RaceResult(CannotRaceBot, r1, races)
    else if wager > user.credits then RaceResult(WagerTooHigh(user.credits), r1, races)
    else PlayerRaceAgainst(Enrolled(r1, opponentId, guildId, now), races, guildId, userId, user,
                           opponentId, wager, userWins, roll, now)
  }

  /** The player race once the opponent's row is read: its balance check, then the settlement. */
  function PlayerRaceAgainst(r2: seq<RacingUser>, races: seq<RaceRow>, guildId: Id, userId: Id, user: RacingUser,
                             opponentId: Id, wager: int, userWins: bool, roll: int, now: int): RaceResult
  {
    var opponent := GetRacingUser(r2, opponentId, guildId);
    if opponent.None? then RaceResult(RaceError, r2, races)
    else if wager > opponent.value.credits then RaceResult(OpponentLacksCredits(opponent.value.credits), r2, races)
    else Settle(r2, races, guildId, userId, user, opponentId, opponent.value, wager, userWins, roll, now)
  }

  /** The race row, the two writes from the rows read, and the winner recorded on the race. */
  function Settle(r2: seq<RacingUser>, races: seq<RaceRow>, guildId: Id, userId: Id, user: RacingUser,
                  opponentId: Id, opponent: RacingUser, wager: int, userWins: bool, roll: int, now: int): RaceResult
  {
    var started := races + [NewRace(guildId, userId, Some(opponentId), "player", wager, now)];
    var prize := PlayerBase + roll + wager;
    var winnerId := if userWins then userId else opponentId;
    var after :=
      if winnerId == userId then PayOut(r2, guildId, userId, user, opponentId, opponent, prize, wager, now)
      else PayOut(r2, guildId, opponentId, opponent, userId, user, prize, wager, now);
    RaceResult(PlayerRaceFinished(|started|, winnerId, prize), after, WithWinner(started, |started|, Some(winnerId)))
  }

  /** The winner's write, then the loser's. */
  function PayOut(rows: seq<RacingUser>, guildId: Id, winnerId: Id, winner: RacingUser, loserId: Id, loser: RacingUser,
                  prize: int, wager: int, now: int): seq<RacingUser>
  {
    PatchedUsers(PatchedUsers(rows, winnerId, guildId, WinPatch(winner, prize), now),
                 loserId, guildId, LossPatch(loser, wager), now)
  }

  /** `/race ai`: the caller's balance check, the race row and one write. */
  function AiRace(r1: seq<RacingUser>, races: seq<RaceRow>, guildId: Id, userId: Id, user: RacingUser,
                  wager: int, playerWins: bool, roll: int, now: int): RaceResult
  {
    if wager > user.credits then RaceResult(WagerTooHigh(user.credits), r1, races)
    else
      var started := races + [NewRace(guildId, userId, None, "ai", wager, now)];
      var reward := AiBase + roll + wager;
      var patch := if playerWins then WinPatch(user, reward) else LossPatch(user, wager);
      RaceResult(AiRaceFinished(|started|, playerWins, if playerWins then reward else -wager),
                 PatchedUsers(r1, userId, guildId, patch, now),
                 WithWinner(started, |started|, Some(if playerWins then userId else AiWinnerId)))
  }

  // ---------------------------------------------------------------- the command

  method Race(db: Database, guildId: Id, userId: Id, cmd: RaceCommand, userWins: bool, roll: int, now: int)
    returns (o: RaceOutcome)
    requires db.Valid()
    modifies db`racingUsers, db`races
    ensures db.Valid()
    ensures o == RaceEffect(old(db.racingUsers), old(db.races), guildId, userId, cmd, userWins, roll, now).outcome
    ensures db.racingUsers == RaceEffect(old(db.racingUsers), old(db.races), guildId, userId, cmd, userWins, roll, now).users
    ensures db.races == RaceEffect(old(db.racingUsers), old(db.races), guildId, userId, cmd, userWins, roll, now).races
  {
    var user := Enrol(db, userId, guildId, now);
    if user.None? {
      return RaceError;
    }
    match cmd
    case PlayerRaceCmd(opponentId, opponentIsBot, wagerOption) =>
      o := RacePlayer(db, guildId, userId, user.value, opponentId, opponentIsBot, OrZero(wagerOption), userWins, roll, now);
    case AiRaceCmd(wagerOption) =>
      o := RaceAi(db, guildId, userId, user.value, OrZero(wagerOption), userWins, roll, now);
    case OtherSubcommand =>
      o := NoReply;
  }

  method RacePlayer(db: Database, guildId: Id, userId: Id, user: RacingUser, opponentId: Id,
                    opponentIsBot: bool, wager: int, userWins: bool, roll: int, now: int)
    returns (o: RaceOutcome)
    requires db.Valid()
    modifies db`racingUsers, db`races
    ensures db.Valid()
    ensures o == PlayerRace(old(db.racingUsers), old(db.races), guildId, userId, user, opponentId, opponentIsBot,
                            wager, userWins, roll, now).outcome
    ensures db.racingUsers == PlayerRace(old(db.racingUsers), old(db.races), guildId, userId, user, opponentId,
                                         opponentIsBot, wager, userWins, roll, now).users
    ensures db.races == PlayerRace(old(db.racingUsers), old(db.races), guildId, userId, user, opponentId,
                                   opponentIsBot, wager, userWins, roll, now).races
  {
    if opponentId == userId {
      return CannotRaceSelf;
    }
    if opponentIsBot {
      return CannotRaceBot;
    }
    if wager > user.credits {
      return WagerTooHigh(user.credits);
    }
    o := RaceOpponent(db, guildId, userId, user, opponentId, wager, userWins, roll, now);
  }

  /** The player race from the opponent's get-or-create on. */
  method RaceOpponent(db: Database, guildId: Id, userId: Id, user: RacingUser, opponentId: Id, wager: int,
                      userWins: bool, roll: int, now: int)
    returns (o: RaceOutcome)
    requires db.Valid()
    modifies db`racingUsers, db`races
    ensures db.Valid()
    ensures o == PlayerRaceAgainst(Enrolled(old(db.racingUsers), opponentId, guildId, now), old(db.races), guildId,
                                   userId, user, opponentId, wager, userWins, roll, now).outcome
    ensures db.racingUsers == PlayerRaceAgainst(Enrolled(old(db.racingUsers), opponentId, guildId, now), old(db.races),
                                                guildId, userId, user, opponentId, wager, userWins, roll, now).users
    ensures db.races == PlayerRaceAgainst(Enrolled(old(db.racingUsers), opponentId, guildId, now), old(db.races),
                                          guildId, userId, user, opponentId, wager, userWins, roll, now).races
  {
    var opponentData := Enrol(db, opponentId, guildId, now);
    if opponentData.None? {
      return RaceError;
    }
    if wager > opponentData.value.credits {
      return OpponentLacksCredits(opponentData.value.credits);
    }
    o := SettleRace(db, guildId, userId, user, opponentId, opponentData.value, wager, userWins, roll, now);
  }

  method SettleRace(db: Database, guildId: Id, userId: Id, user: RacingUser, opponentId: Id, opponent: RacingUser,
                    wager: int, userWins: bool, roll: int, now: int)
    returns (o: RaceOutcome)
    requires db.Valid()
    modifies db`racingUsers, db`races
    ensures db.Valid()
    ensures o == Settle(old(db.racingUsers), old(db.races), guildId, userId, user, opponentId, opponent, wager,
                        userWins, roll, now).outcome
    ensures db.racingUsers == Settle(old(db.racingUsers), old(db.races), guildId, userId, user, opponentId, opponent,
                                     wager, userWins, roll, now).users
    ensures db.races == Settle(old(db.racingUsers), old(db.races), guildId, userId, user, opponentId, opponent,
                               wager, userWins, roll, now).races
  {
    var raceId := db.CreateRace(guildId, userId, Some(opponentId), "player", wager, now);
    var winner := if userWins then userId else opponentId;
    var baseReward := PlayerBase + roll;
    var totalReward := baseReward + wager;
    if winner == userId {
      PayOutWrites(db, guildId, userId, user, opponentId, opponent, totalReward, wager, now);
    } else {
      PayOutWrites(db, guildId, opponentId, opponent, userId, user, totalReward, wager, now);
    }
    db.UpdateRace(raceId, Some(winner));
    o := PlayerRaceFinished(raceId, winner, totalReward);
  }

  /** The two `updateRacingUser` calls of a finished player race. */
  method PayOutWrites(db: Database, guildId: Id, winnerId: Id, winner: RacingUser, loserId: Id, loser: RacingUser,
                      prize: int, wager: int, now: int)
    requires db.Valid()
    modifies db`racingUsers
    ensures db.Valid()
    ensures db.racingUsers == PayOut(old(db.racingUsers), guildId, winnerId, winner, loserId, loser, prize, wager, now)
  {
    db.UpdateRacingUser(winnerId, guildId, WinPatch(winner, prize), now);
    db.UpdateRacingUser(loserId, guildId, LossPatch(loser, wager), now);
  }

  method RaceAi(db: Database, guildId: Id, userId: Id, user: RacingUser, wager: int, playerWins: bool,
                roll: int, now: int)
    returns (o: RaceOutcome)
    requires db.Valid()
    modifies db`racingUsers, db`races
    ensures db.Valid()
    ensures o == AiRace(old(db.racingUsers), old(db.races), guildId, userId, user, wager, playerWins, roll, now).outcome
    ensures db.racingUsers ==
      AiRace(old(db.racingUsers), old(db.races), guildId, userId, user, wager, playerWins, roll, now).users
    ensures db.races == AiRace(old(db.racingUsers), old(db.races), guildId, userId, user, wager, playerWins, roll, now).races
  {
    if wager > user.credits {
      return WagerTooHigh(user.credits);
    }
    var raceId := db.CreateRace(guildId, userId, None, "ai", wager, now);
    var winner := if playerWins then userId else AiWinnerId;
    var baseReward := AiBase + roll;
    var totalReward := if playerWins then baseReward + wager else 0;
    if playerWins {
      db.UpdateRacingUser(userId, guildId, WinPatch(user, totalReward), now);
    } else {
      db.UpdateRacingUser(userId, guildId, LossPatch(user, wager), now);
    }
    db.UpdateRace(raceId, Some(winner));
    o := AiRaceFinished(raceId, playerWins, if playerWins then totalReward else -wager);
  }

  // ---------------------------------------------------------------- what a race does

  /**
   * A caller whose row can be neither found nor created ends in the error reply before anything
   * else; otherwise a player race is refused for oneself and for a bot first, then for a wager above
   * the caller's balance, then above the opponent's, and an opponent without a row ends in the error reply.
   * A refusal records no race and writes nothing but the get-or-create rows.
   */
  lemma PlayerRaceRefusals(users: seq<RacingUser>, races: seq<RaceRow>, guildId: Id, userId: Id, opponentId: Id,
                           opponentIsBot: bool, wager: Option<int>, userWins: bool, roll: int, now: int)
    ensures var res := RaceEffect(users, races, guildId, userId, PlayerRaceCmd(opponentId, opponentIsBot, wager),
                                  userWins, roll, now);
      var w := OrZero(wager);
      var r1 := Enrolled(users, userId, guildId, now);
      (!CanEnrol(users, userId, guildId) ==> res.outcome == RaceError && res.users == users && res.races == races) &&
      (res.outcome == CannotRaceSelf <==> CanEnrol(users, userId, guildId) && opponentId == userId) &&
      (res.outcome == CannotRaceBot <==> CanEnrol(users, userId, guildId) && opponentId != userId && opponentIsBot) &&
      (res.outcome.WagerTooHigh? <==>
         opponentId != userId && !opponentIsBot && CanEnrol(users, userId, guildId) &&
         w > BalanceOf(users, userId, guildId)) &&
      (res.outcome.WagerTooHigh? ==> res.outcome.have == BalanceOf(users, userId, guildId)) &&
      (res.outcome.OpponentLacksCredits? <==>
         opponentId != userId && !opponentIsBot && CanEnrol(users, userId, guildId) &&
         w <= BalanceOf(users, userId, guildId) && CanEnrol(r1, opponentId, guildId) &&
         w > BalanceOf(users, opponentId, guildId)) &&
      (res.outcome.OpponentLacksCredits? ==> res.outcome.have == BalanceOf(users, opponentId, guildId)) &&
      (!res.outcome.PlayerRaceFinished? ==>
         res.races == races && (res.users == r1 || res.users == Enrolled(r1, opponentId, guildId, now)))
  {
    EnrolmentIs(users, userId, guildId, now);
    var r1 := Enrolled(users, userId, guildId, now);
    EnrolmentIs(r1, opponentId, guildId, now);
    if opponentId != userId && GetRacingUser(r1, userId, guildId).Some? {
      PairEnrolments(users, guildId, userId, opponentId, now);
    }
  }

  /**
   * The winner's row gained the prize and one race and one win; the loser's row lost the wager and
   * gained one race and one loss.
   */
  predicate PaidOut(rows: seq<RacingUser>, guildId: Id, winnerId: Id, winner: RacingUser, loserId: Id, loser: RacingUser,
                    prize: int, wager: int, now: int)
  {
    GetRacingUser(rows, winnerId, guildId) ==
      Some(winner.(credits := winner.credits + prize, totalRaces := winner.totalRaces + 1,
                   wins := winner.wins + 1, updatedAt := now)) &&
    GetRacingUser(rows, loserId, guildId) ==
      Some(loser.(credits := loser.credits - wager, totalRaces := loser.totalRaces + 1,
                  losses := loser.losses + 1, updatedAt := now))
  }

  /**
   * A race between the user's row and the opponent's settled: one more race, recorded with its
   * winner, and the winner paid the prize (the 100-credit base, the roll and the wager) out of
   * nothing but the loser's wager.
   */
  predicate SettledAs(res: RaceResult, races: seq<RaceRow>, guildId: Id, userId: Id, opponentId: Id,
                      user: RacingUser, opponent: RacingUser, wager: int, userWins: bool, roll: int, now: int)
  {
    var winnerId := if userWins then userId else opponentId;
    var prize := PlayerBase + roll + wager;
    res.outcome == PlayerRaceFinished(|races| + 1, winnerId, prize) &&
    res.races == races + [NewRace(guildId, userId, Some(opponentId), "player", wager, now).(winnerId := Some(winnerId))] &&
    (userWins ==> PaidOut(res.users, guildId, userId, user, opponentId, opponent, prize, wager, now)) &&
    (!userWins ==> PaidOut(res.users, guildId, opponentId, opponent, userId, user, prize, wager, now))
  }

  /**
   * A finished player race settles between the rows both racers' get-or-create steps yield, the
   * wager within both balances, so together the two gain exactly the base and the roll.
   */
  lemma PlayerRaceSettles(users: seq<RacingUser>, races: seq<RaceRow>, guildId: Id, userId: Id, opponentId: Id,
                          opponentIsBot: bool, wager: Option<int>, userWins: bool, roll: int, now: int)
    requires RaceEffect(users, races, guildId, userId, PlayerRaceCmd(opponentId, opponentIsBot, wager),
                        userWins, roll, now).outcome.PlayerRaceFinished?
    ensures var res := RaceEffect(users, races, guildId, userId, PlayerRaceCmd(opponentId, opponentIsBot, wager),
                                  userWins, roll, now);
      var w := OrZero(wager);
      var user := SeenRow(users, userId, guildId, now);
      var opponent := SeenRow(users, opponentId, guildId, now);
      SettledAs(res, races, guildId, userId, opponentId, user, opponent, w, userWins, roll, now) &&
      userId != opponentId && w <= user.credits && w <= opponent.credits &&
      BalanceOf(res.users, userId, guildId) + BalanceOf(res.users, opponentId, guildId) ==
        BalanceOf(users, userId, guildId) + BalanceOf(users, opponentId, guildId) + PlayerBase + roll
  {
    var w := OrZero(wager);
    var r1 := Enrolled(users, userId, guildId, now);
    var r2 := Enrolled(r1, opponentId, guildId, now);
    PairEnrolments(users, guildId, userId, opponentId, now);
    var user := GetRacingUser(r2, userId, guildId).value;
    var opponent := GetRacingUser(r2, opponentId, guildId).value;
    assert user == SeenRow(users, userId, guildId, now);
    assert opponent == SeenRow(users, opponentId, guildId, now);
    assert w <= user.credits && w <= opponent.credits;
    var res := RaceEffect(users, races, guildId, userId, PlayerRaceCmd(opponentId, opponentIsBot, wager), userWins, roll, now);
    assert res == Settle(r2, races, guildId, userId, user, opponentId, opponent, w, userWins, roll, now);
    SettleRows(r2, races, guildId, userId, user, opponentId, opponent, w, userWins, roll, now);
  }

  /** The settlement of a race between two looked-up rows: the outcome, the race row and both writes. */
  lemma SettleRows(r2: seq<RacingUser>, races: seq<RaceRow>, guildId: Id, userId: Id, user: RacingUser,
                   opponentId: Id, opponent: RacingUser, wager: int, userWins: bool, roll: int, now: int)
    requires GetRacingUser(r2, userId, guildId) == Some(user) && GetRacingUser(r2, opponentId, guildId) == Some(opponent)
    requires userId != opponentId
    ensures var res := Settle(r2, races, guildId, userId, user, opponentId, opponent, wager, userWins, roll, now);
      SettledAs(res, races, guildId, userId, opponentId, user, opponent, wager, userWins, roll, now) &&
      BalanceOf(res.users, userId, guildId) + BalanceOf(res.users, opponentId, guildId) ==
        user.credits + opponent.credits + PlayerBase + roll
  {
    var prize := PlayerBase + roll + wager;
    var started := races + [NewRace(guildId, userId, Some(opponentId), "player", wager, now)];
    var res := Settle(r2, races, guildId, userId, user, opponentId, opponent, wager, userWins, roll, now);
    if userWins {
      assert res.users == PayOut(r2, guildId, userId, user, opponentId, opponent, prize, wager, now);
      PayOutRows(r2, guildId, userId, user, opponentId, opponent, prize, wager, now);
    } else {
      assert res.users == PayOut(r2, guildId, opponentId, opponent, userId, user, prize, wager, now);
      PayOutRows(r2, guildId, opponentId, opponent, userId, user, prize, wager, now);
    }
    assert res.races == WithWinner(started, |started|, Some(if userWins then userId else opponentId));
  }

  /** The pay-out writes the winner's row up by the prize and the loser's down by the wager. */
  lemma PayOutRows(rows: seq<RacingUser>, guildId: Id, winnerId: Id, winner: RacingUser, loserId: Id, loser: RacingUser,
                   prize: int, wager: int, now: int)
    requires GetRacingUser(rows, winnerId, guildId) == Some(winner) && GetRacingUser(rows, loserId, guildId) == Some(loser)
    requires winnerId != loserId
    ensures PaidOut(PayOut(rows, guildId, winnerId, winner, loserId, loser, prize, wager, now),
                    guildId, winnerId, winner, loserId, loser, prize, wager, now)
  {
    TwoPatchesLookup(rows, guildId, winnerId, winner, WinPatch(winner, prize), loserId, loser, LossPatch(loser, wager),
                     now, winnerId, guildId);
    TwoPatchesLookup(rows, guildId, winnerId, winner, WinPatch(winner, prize), loserId, loser, LossPatch(loser, wager),
                     now, loserId, guildId);
    WinPatched(winner, prize, now);
    LossPatched(loser, wager, now);
  }

  /** A player race changes no lookup but the two racers'. */
  lemma PlayerRaceLeavesOthers(users: seq<RacingUser>, races: seq<RaceRow>, guildId: Id, userId: Id, opponentId: Id,
                               opponentIsBot: bool, wager: Option<int>, userWins: bool, roll: int, now: int,
                               u: Id, g: Id)
    requires (u, g) != (userId, guildId) && (u, g) != (opponentId, guildId)
    ensures GetRacingUser(RaceEffect(users, races, guildId, userId, PlayerRaceCmd(opponentId, opponentIsBot, wager),
                                     userWins, roll, now).users, u, g) == GetRacingUser(users, u, g)
  {
    var w := OrZero(wager);
    var r1 := Enrolled(users, userId, guildId, now);
    var r2 := Enrolled(r1, opponentId, guildId, now);
    EnrolledLookup(users, userId, guildId, now, u, g);
    if opponentId != userId && GetRacingUser(r1, userId, guildId).Some? {
      PairEnrolments(users, guildId, userId, opponentId, now);
      var res := RaceEffect(users, races, guildId, userId, PlayerRaceCmd(opponentId, opponentIsBot, wager),
                            userWins, roll, now);
      if res.outcome.PlayerRaceFinished? {
        var user := GetRacingUser(r2, userId, guildId).value;
        var opponent := GetRacingUser(r2, opponentId, guildId).value;
        var prize := PlayerBase + roll + w;
        if userWins {
          TwoPatchesLookup(r2, guildId, userId, user, WinPatch(user, prize), opponentId, opponent,
                           LossPatch(opponent, w), now, u, g);
        } else {
          TwoPatchesLookup(r2, guildId, opponentId, opponent, WinPatch(opponent, prize), userId, user,
                           LossPatch(user, w), now, u, g);
        }
      }
    }
  }

  /** With a non-negative wager and roll, a player race keeps the table sound and the user ids unique. */
  lemma PlayerRaceKeepsSound(users: seq<RacingUser>, races: seq<RaceRow>, guildId: Id, userId: Id, opponentId: Id,
                             opponentIsBot: bool, wager: Option<int>, userWins: bool, roll: int, now: int)
    requires Sound(users) && UniqueUserIds(users)
    requires OrZero(wager) >= 0 && roll >= 0
    ensures var after := RaceEffect(users, races, guildId, userId, PlayerRaceCmd(opponentId, opponentIsBot, wager),
                                    userWins, roll, now).users;
      Sound(after) && UniqueUserIds(after)
  {
    var w := OrZero(wager);
    var r1 := Enrolled(users, userId, guildId, now);
    EnrolledKeepsSound(users, userId, guildId, now);
    var user := GetRacingUser(r1, userId, guildId);
    if opponentId != userId && !opponentIsBot && user.Some? && w <= user.value.credits {
      var r2 := Enrolled(r1, opponentId, guildId, now);
      EnrolledKeepsSound(r1, opponentId, guildId, now);
      PairEnrolments(users, guildId, userId, opponentId, now);
      var opponent := GetRacingUser(r2, opponentId, guildId);
      if opponent.Some? && w <= opponent.value.credits {
        SettleKeepsSound(r2, races, guildId, userId, user.value, opponentId, opponent.value, w, userWins, roll, now);
      }
    }
  }

  /** Settling between two distinct rows read from a sound table keeps it sound. */
  lemma SettleKeepsSound(r2: seq<RacingUser>, races: seq<RaceRow>, guildId: Id, userId: Id, user: RacingUser,
                         opponentId: Id, opponent: RacingUser, wager: int, userWins: bool, roll: int, now: int)
    requires Sound(r2) && UniqueUserIds(r2)
    requires GetRacingUser(r2, userId, guildId) == Some(user) && GetRacingUser(r2, opponentId, guildId) == Some(opponent)
    requires userId != opponentId && roll >= 0 && 0 <= wager <= user.credits && wager <= opponent.credits
    ensures var after := Settle(r2, races, guildId, userId, user, opponentId, opponent, wager, userWins, roll, now).users;
      Sound(after) && UniqueUserIds(after)
  {
    var prize := PlayerBase + roll + wager;
    if userWins {
      PayOutKeepsSound(r2, guildId, userId, user, opponentId, opponent, prize, wager, now);
    } else {
      PayOutKeepsSound(r2, guildId, opponentId, opponent, userId, user, prize, wager, now);
    }
  }

  /** Paying out to two distinct rows read from a sound table keeps it sound. */
  lemma PayOutKeepsSound(rows: seq<RacingUser>, guildId: Id, winnerId: Id, winner: RacingUser, loserId: Id,
                         loser: RacingUser, prize: int, wager: int, now: int)
    requires Sound(rows) && UniqueUserIds(rows)
    requires GetRacingUser(rows, winnerId, guildId) == Some(winner) && GetRacingUser(rows, loserId, guildId) == Some(loser)
    requires winnerId != loserId
    requires prize >= 0 && 0 <= wager <= loser.credits
    ensures Sound(PayOut(rows, guildId, winnerId, winner, loserId, loser, prize, wager, now))
    ensures UniqueUserIds(PayOut(rows, guildId, winnerId, winner, loserId, loser, prize, wager, now))
  {
    GetRacingUserIn(rows, winnerId, guildId);
    GetRacingUserIn(rows, loserId, guildId);
    var r3 := PatchedUsers(rows, winnerId, guildId, WinPatch(winner, prize), now);
    WinPatched(winner, prize, now);
    PatchKeepsSound(rows, winnerId, guildId, WinPatch(winner, prize), now);
    GetPatched(rows, winnerId, guildId, WinPatch(winner, prize), now, loserId, guildId);
    LossPatched(loser, wager, now);
    PatchKeepsSound(r3, loserId, guildId, LossPatch(loser, wager), now);
  }

  /**
   * An AI race is refused for a wager above the caller's balance; otherwise it records one race won
   * by the caller or by `ai`, and the caller gains the 50-credit base, the roll and the wager, or
   * loses the wager, with one more race and one more win or loss.
   */
  lemma AiRaceSettles(users: seq<RacingUser>, races: seq<RaceRow>, guildId: Id, userId: Id, wager: Option<int>,
                      playerWins: bool, roll: int, now: int)
    ensures var res := RaceEffect(users, races, guildId, userId, AiRaceCmd(wager), playerWins, roll, now);
      var w := OrZero(wager);
      var before := SeenRow(users, userId, guildId, now);
      (res.outcome == RaceError <==> !CanEnrol(users, userId, guildId)) &&
      (res.outcome.WagerTooHigh? <==> CanEnrol(users, userId, guildId) && w > before.credits) &&
      (res.outcome.WagerTooHigh? ==> res.outcome.have == before.credits) &&
      (!res.outcome.AiRaceFinished? ==> res.races == races && res.users == Enrolled(users, userId, guildId, now)) &&
      (res.outcome.AiRaceFinished? ==>
         res.outcome == AiRaceFinished(|races| + 1, playerWins, if playerWins then AiBase + roll + w else -w) &&
         res.races == races + [NewRace(guildId, userId, None, "ai", w, now)
                                 .(winnerId := Some(if playerWins then userId else AiWinnerId))] &&
         GetRacingUser(res.users, userId, guildId) ==
           Some(if playerWins
                then before.(credits := before.credits + AiBase + roll + w, totalRaces := before.totalRaces + 1,
                             wins := before.wins + 1, updatedAt := now)
                else before.(credits := before.credits - w, totalRaces := before.totalRaces + 1,
                             losses := before.losses + 1, updatedAt := now)))
  {
    EnrolmentIs(users, userId, guildId, now);
    var w := OrZero(wager);
    var r1 := Enrolled(users, userId, guildId, now);
    var user := GetRacingUser(r1, userId, guildId);
    if user.Some? {
      var patch := if playerWins then WinPatch(user.value, AiBase + roll + w) else LossPatch(user.value, w);
      GetPatched(r1, userId, guildId, patch, now, userId, guildId);
      WinPatched(user.value, AiBase + roll + w, now);
      LossPatched(user.value, w, now);
    }
  }

  /** An AI race changes no other user's lookup. */
  lemma AiRaceLeavesOthers(users: seq<RacingUser>, races: seq<RaceRow>, guildId: Id, userId: Id, wager: Option<int>,
                           playerWins: bool, roll: int, now: int, u: Id, g: Id)
    requires (u, g) != (userId, guildId)
    ensures GetRacingUser(RaceEffect(users, races, guildId, userId, AiRaceCmd(wager), playerWins, roll, now).users, u, g) ==
      GetRacingUser(users, u, g)
  {
    var w := OrZero(wager);
    var r1 := Enrolled(users, userId, guildId, now);
    EnrolledLookup(users, userId, guildId, now, u, g);
    var user := GetRacingUser(r1, userId, guildId);
    if user.Some? {
      var patch := if playerWins then WinPatch(user.value, AiBase + roll + w) else LossPatch(user.value, w);
      GetPatched(r1, userId, guildId, patch, now, u, g);
    }
  }

  /** With a non-negative wager and roll, an AI race keeps the table sound and the user ids unique. */
  lemma AiRaceKeepsSound(users: seq<RacingUser>, races: seq<RaceRow>, guildId: Id, userId: Id, wager: Option<int>,
                         playerWins: bool, roll: int, now: int)
    requires Sound(users) && UniqueUserIds(users)
    requires OrZero(wager) >= 0 && roll >= 0
    ensures var after := RaceEffect(users, races, guildId, userId, AiRaceCmd(wager), playerWins, roll, now).users;
      Sound(after) && UniqueUserIds(after)
  {
    var w := OrZero(wager);
    var r1 := Enrolled(users, userId, guildId, now);
    EnrolledKeepsSound(users, userId, guildId, now);
    var user := GetRacingUser(r1, userId, guildId);
    if user.Some? && w <= user.value.credits {
      GetRacingUserIn(r1, userId, guildId);
      var patch := if playerWins then WinPatch(user.value, AiBase + roll + w) else LossPatch(user.value, w);
      WinPatched(user.value, AiBase + roll + w, now);
      LossPatched(user.value, w, now);
      PatchKeepsSound(r1, userId, guildId, patch, now);
    }
  }

  /**
   * Any other subcommand creates the caller's row and does nothing else; when the row can be
   * neither found nor created, it ends in the error reply like every subcommand.
   */
  lemma OtherSubcommandOnlyEnrols(users: seq<RacingUser>, races: seq<RaceRow>, guildId: Id, userId: Id,
                                  userWins: bool, roll: int, now: int)
    ensures RaceEffect(users, races, guildId, userId, OtherSubcommand, userWins, roll, now) ==
      RaceResult(if CanEnrol(users, userId, guildId) then NoReply else RaceError,
                 Enrolled(users, userId, guildId, now), races)
  {
    EnrolmentIs(users, userId, guildId, now);
  }
}
