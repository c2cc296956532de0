/**
 * The racing economy's writes: `/transfer`, `/daily`, `/givecredits` and `/resetstats`. Every
 * command first fetches the caller's racing row and creates it on demand; because the table is
 * keyed by user id alone, that creation fails for a user registered in another guild, and the
 * command then ends in its generic error reply.
 */
module Economy {
  import opened Common
  import opened Text
  import opened Store

  // ---------------------------------------------------------------- lookups after a table change

  /** `getRacingUser` after `updateRacingUser`: the patched row is found patched, every other lookup is unchanged. */
  lemma {:induction false} GetPatched(rows: seq<RacingUser>, userId: Id, guildId: Id, p: RacingPatch, now: int,
                                      u: Id, g: Id)
    ensures GetRacingUser(PatchedUsers(rows, userId, guildId, p, now), u, g) ==
      if u == userId && g == guildId && GetRacingUser(rows, u, g).Some?
      then Some(ApplyRacingPatch(GetRacingUser(rows, u, g).value, p, now))
      else GetRacingUser(rows, u, g)
    decreases |rows|
  {
    if rows != [] {
      assert PatchedUsers(rows, userId, guildId, p, now)[1..] == PatchedUsers(rows[1..], userId, guildId, p, now);
      GetPatched(rows[1..], userId, guildId, p, now, u, g);
    }
  }

  /** `getRacingUser` after an insert: an earlier row wins, else the new one if it matches. */
  lemma {:induction false} GetAppended(rows: seq<RacingUser>, x: RacingUser, u: Id, g: Id)
    ensures GetRacingUser(rows + [x], u, g) ==
      if GetRacingUser(rows, u, g).Some? then GetRacingUser(rows, u, g)
      else if x.userId == u && x.guildId == g then Some(x) else None
    decreases |rows|
  {
    if rows == [] {
      assert [] + [x] == [x];
    } else {
      assert (rows + [x])[1..] == rows[1..] + [x];
      GetAppended(rows[1..], x, u, g);
    }
  }

  /** With unique user ids, the lookup by a row's own ids finds that very row. */
  lemma FoundIsTheRow(rows: seq<RacingUser>, i: int)
    requires UniqueUserIds(rows) && 0 <= i < |rows|
    ensures GetRacingUser(rows, rows[i].userId, rows[i].guildId) == Some(rows[i])
  {
    var r := GetRacingUser(rows, rows[i].userId, rows[i].guildId);
    GetRacingUserFinds(rows, rows[i].userId, rows[i].guildId);
    assert r.Some?;
    var j :| 0 <= j < |rows| && rows[j] == r.value && rows[j].userId == rows[i].userId;
    assert j == i;
  }

  // ---------------------------------------------------------------- the table invariant

  /** What the economy keeps true of a row: no debt, every race counted once, a non-negative streak. */
  predicate SoundRow(x: RacingUser) {
    x.credits >= 0 && x.totalRaces == x.wins + x.losses && x.dailyClaimed >= 0
  }

  predicate Sound(rows: seq<RacingUser>) {
    forall i :: 0 <= i < |rows| ==> SoundRow(rows[i])
  }

  /** A patch computed from the row it is applied to keeps the table sound if it keeps that row sound. */
  lemma PatchKeepsSound(rows: seq<RacingUser>, userId: Id, guildId: Id, p: RacingPatch, now: int)
    requires Sound(rows) && UniqueUserIds(rows)
    requires GetRacingUser(rows, userId, guildId).Some? ==>
      SoundRow(ApplyRacingPatch(GetRacingUser(rows, userId, guildId).value, p, now))
    ensures Sound(PatchedUsers(rows, userId, guildId, p, now))
    ensures UniqueUserIds(PatchedUsers(rows, userId, guildId, p, now))
  {
    var r := PatchedUsers(rows, userId, guildId, p, now);
    forall i | 0 <= i < |r| ensures SoundRow(r[i]) {
      if rows[i].userId == userId && rows[i].guildId == guildId {
        FoundIsTheRow(rows, i);
      }
    }
  }

  // ---------------------------------------------------------------- get or create

  /** Whether the get-or-create step yields a row: it exists in this guild, or the id is still free. */
  predicate CanEnrol(rows: seq<RacingUser>, userId: Id, guildId: Id) {
    GetRacingUser(rows, userId, guildId).Some? || !HasUserId(rows, userId)
  }

  /** The table after the get-or-create step. */
  function Enrolled(rows: seq<RacingUser>, userId: Id, guildId: Id, now: int): (r: seq<RacingUser>)
  {
    if GetRacingUser(rows, userId, guildId).None? && !HasUserId(rows, userId)
    then rows + [NewRacingUser(userId, guildId, now)] else rows
  }

  /** The row a user gets from the get-or-create step, if any. */
  function Enrolment(rows: seq<RacingUser>, userId: Id, guildId: Id, now: int): Option<RacingUser> {
    GetRacingUser(Enrolled(rows, userId, guildId, now), userId, guildId)
  }

  /** What every lookup sees after the get-or-create step: only the enrolled user can gain a row. */
  lemma EnrolledLookup(rows: seq<RacingUser>, userId: Id, guildId: Id, now: int, u: Id, g: Id)
    ensures GetRacingUser(Enrolled(rows, userId, guildId, now), u, g) ==
      if u == userId && g == guildId && GetRacingUser(rows, u, g).None? && !HasUserId(rows, userId)
      then Some(NewRacingUser(userId, guildId, now)) else GetRacingUser(rows, u, g)
  {
    if GetRacingUser(rows, userId, guildId).None? && !HasUserId(rows, userId) {
      GetAppended(rows, NewRacingUser(userId, guildId, now), u, g);
    }
  }

  /** The get-or-create step yields the existing row, else a default row with 1000 credits, else nothing. */
  lemma EnrolmentIs(rows: seq<RacingUser>, userId: Id, guildId: Id, now: int)
    ensures Enrolment(rows, userId, guildId, now).Some? <==> CanEnrol(rows, userId, guildId)
    ensures GetRacingUser(rows, userId, guildId).Some? ==>
      Enrolment(rows, userId, guildId, now) == GetRacingUser(rows, userId, guildId) &&
      Enrolled(rows, userId, guildId, now) == rows
    ensures GetRacingUser(rows, userId, guildId).None? && !HasUserId(rows, userId) ==>
      Enrolment(rows, userId, guildId, now) == Some(NewRacingUser(userId, guildId, now))
    ensures !CanEnrol(rows, userId, guildId) ==> Enrolled(rows, userId, guildId, now) == rows
  {
    EnrolledLookup(rows, userId, guildId, now, userId, guildId);
  }

  /** `getRacingUser`, then `createRacingUser` and `getRacingUser` again when there was no row. */
  method Enrol(db: Database, userId: Id, guildId: Id, now: int) returns (user: Option<RacingUser>)
    requires db.Valid()
    modifies db`racingUsers
    ensures db.Valid()
    ensures db.racingUsers == Enrolled(old(db.racingUsers), userId, guildId, now)
    ensures user == GetRacingUser(db.racingUsers, userId, guildId)
  {
    user := GetRacingUser(db.racingUsers, userId, guildId);
    if user.None? {
      var _ := db.CreateRacingUser(userId, guildId, now);
      user := GetRacingUser(db.racingUsers, userId, guildId);
    }
  }

  /** A user's balance as the commands see it: the row's credits, or the 1000 a new row starts with. */
  function BalanceOf(rows: seq<RacingUser>, userId: Id, guildId: Id): int {
    if GetRacingUser(rows, userId, guildId).Some? then GetRacingUser(rows, userId, guildId).value.credits else 1000
  }

  /** The row a user's get-or-create step yields when it yields one: the stored row or a new one. */
  function SeenRow(rows: seq<RacingUser>, userId: Id, guildId: Id, now: int): (x: RacingUser)
    ensures x.credits == BalanceOf(rows, userId, guildId)
    ensures x.userId == userId && x.guildId == guildId
  {
    if GetRacingUser(rows, userId, guildId).Some? then GetRacingUser(rows, userId, guildId).value
    else NewRacingUser(userId, guildId, now)
  }

  /** `{ credits: c }`. */
  function CreditsPatch(c: int): RacingPatch {
    NoRacingChange.(credits := Some(c))
  }

  // ---------------------------------------------------------------- transfer

  datatype TransferOutcome =
    | CannotTransferToSelf
    | CannotTransferToBot
    | NotEnoughCredits(have: int)
    | TransferError
    | Transferred(senderBalance: int, recipientBalance: int)

  /**
   * `/transfer user amount`: recipient checks, the sender's get-or-create, the balance check,
   * the recipient's get-or-create, then two writes from the balances read.
   */
  function TransferEffect(rows: seq<RacingUser>, guildId: Id, senderId: Id, recipientId: Id, recipientIsBot: bool,
                          amount: int, now: int): (TransferOutcome, seq<RacingUser>)
  {
    if recipientId == senderId then (CannotTransferToSelf, rows)
    else if recipientIsBot then (CannotTransferToBot, rows)
    else TransferFromSender(Enrolled(rows, senderId, guildId, now), guildId, senderId, recipientId, amount, now)
  }

  /** The steps after the sender's get-or-create, on the table `r1` it left. */
  function TransferFromSender(r1: seq<RacingUser>, guildId: Id, senderId: Id, recipientId: Id, amount: int, now: int)
    : (TransferOutcome, seq<RacingUser>)
  {
    var sender := GetRacingUser(r1, senderId, guildId);
    if sender.None? then (TransferError, r1)
    else if sender.value.credits < amount then (NotEnoughCredits(sender.value.credits), r1)
    else TransferToRecipient(Enrolled(r1, recipientId, guildId, now), guildId, senderId, recipientId,
                             sender.value, amount, now)
  }

  /** The steps after the recipient's get-or-create: the two credits writes. */
  function TransferToRecipient(r2: seq<RacingUser>, guildId: Id, senderId: Id, recipientId: Id, sender: RacingUser,
                               amount: int, now: int): (TransferOutcome, seq<RacingUser>)
  {
    var recipient := GetRacingUser(r2, recipientId, guildId);
    if recipient.None? then (TransferError, r2)
    else
      var r3 := PatchedUsers(r2, senderId, guildId, CreditsPatch(sender.credits - amount), now);
      (Transferred(sender.credits - amount, recipient.value.credits + amount),
       PatchedUsers(r3, recipientId, guildId, CreditsPatch(recipient.value.credits + amount), now))
  }

  /** `TransferToRecipient` once the recipient's row is known. */
  lemma TransferToRecipientIs(r2: seq<RacingUser>, guildId: Id, senderId: Id, recipientId: Id, sender: RacingUser,
                              recipient: RacingUser, amount: int, now: int)
    requires GetRacingUser(r2, recipientId, guildId) == Some(recipient)
    ensures TransferToRecipient(r2, guildId, senderId, recipientId, sender, amount, now).0 ==
      Transferred(sender.credits - amount, recipient.credits + amount)
    ensures TransferToRecipient(r2, guildId, senderId, recipientId, sender, amount, now).1 ==
      PatchedUsers(PatchedUsers(r2, senderId, guildId, CreditsPatch(sender.credits - amount), now),
                   recipientId, guildId, CreditsPatch(recipient.credits + amount), now)
  {
  }

  method Transfer(db: Database, guildId: Id, senderId: Id, recipientId: Id, recipientIsBot: bool,
                  amount: int, now: int)
    returns (o: TransferOutcome)
    requires db.Valid()
    modifies db`racingUsers
    ensures db.Valid()
    ensures o == TransferEffect(old(db.racingUsers), guildId, senderId, recipientId, recipientIsBot, amount, now).0
    ensures db.racingUsers ==
      TransferEffect(old(db.racingUsers), guildId, senderId, recipientId, recipientIsBot, amount, now).1
  {
    if recipientId == senderId {
      return CannotTransferToSelf;
    }
    if recipientIsBot {
      return CannotTransferToBot;
    }
    var sender := Enrol(db, senderId, guildId, now);
    if sender.None? {
      return TransferError;
    }
    if sender.value.credits < amount {
      return NotEnoughCredits(sender.value.credits);
    }
    o := PayRecipient(db, guildId, senderId, recipientId, sender.value, amount, now);
  }

  /** The part of `/transfer` after the balance check: the recipient's get-or-create and the two writes. */
  method PayRecipient(db: Database, guildId: Id, senderId: Id, recipientId: Id, sender: RacingUser,
                      amount: int, now: int)
    returns (o: TransferOutcome)
    requires db.Valid()
    modifies db`racingUsers
    ensures db.Valid()
    ensures o == TransferToRecipient(Enrolled(old(db.racingUsers), recipientId, guildId, now),
                                     guildId, senderId, recipientId, sender, amount, now).0
    ensures db.racingUsers == TransferToRecipient(Enrolled(old(db.racingUsers), recipientId, guildId, now),
                                                  guildId, senderId, recipientId, sender, amount, now).1
  {
    var recipient := Enrol(db, recipientId, guildId, now);
    if recipient.None? {
      return TransferError;
    }
    ghost var r2 := db.racingUsers;
    db.UpdateRacingUser(senderId, guildId, CreditsPatch(sender.credits - amount), now);
    db.UpdateRacingUser(recipientId, guildId, CreditsPatch(recipient.value.credits + amount), now);
    o := Transferred(sender.credits - amount, recipient.value.credits + amount);
    TransferToRecipientIs(r2, guildId, senderId, recipientId, sender, recipient.value, amount, now);
  }

  /** The refusals: self, bot, and a balance below the amount (so sending everything is allowed). */
  lemma TransferRefusals(rows: seq<RacingUser>, guildId: Id, senderId: Id, recipientId: Id, recipientIsBot: bool,
                         amount: int, now: int)
    ensures var (o, after) := TransferEffect(rows, guildId, senderId, recipientId, recipientIsBot, amount, now);
      (o == CannotTransferToSelf <==> recipientId == senderId) &&
      (o == CannotTransferToBot <==> recipientId != senderId && recipientIsBot) &&
      (o.NotEnoughCredits? <==>
         recipientId != senderId && !recipientIsBot && CanEnrol(rows, senderId, guildId) &&
         BalanceOf(rows, senderId, guildId) < amount) &&
      (o.NotEnoughCredits? ==> o.have == BalanceOf(rows, senderId, guildId)) &&
      (!o.Transferred? ==> after == rows || after == Enrolled(rows, senderId, guildId, now))
  {
    EnrolmentIs(rows, senderId, guildId, now);
    var r1 := Enrolled(rows, senderId, guildId, now);
    EnrolmentIs(r1, recipientId, guildId, now);
  }

  /** A credits-only patch sets the balance and the update stamp and nothing else. */
  lemma CreditsPatched(x: RacingUser, c: int, now: int)
    ensures ApplyRacingPatch(x, CreditsPatch(c), now) == x.(credits := c, updatedAt := now)
  {
    var y := ApplyRacingPatch(x, CreditsPatch(c), now);
    assert ColumnValue(y, Credits) == c;
    assert ColumnValue(y, TotalRaces) == x.totalRaces && ColumnValue(y, Wins) == x.wins;
    assert ColumnValue(y, Losses) == x.losses && ColumnValue(y, DailyClaimed) == x.dailyClaimed;
    assert ColumnValue(y, LastDaily) == x.lastDaily;
  }

  /** Every lookup after the two writes: the pair's rows carry the new balances, all others are as before. */
  lemma PaidLookup(r2: seq<RacingUser>, guildId: Id, senderId: Id, recipientId: Id, sender: RacingUser,
                   recipient: RacingUser, amount: int, now: int, u: Id, g: Id)
    requires GetRacingUser(r2, recipientId, guildId) == Some(recipient)
    requires GetRacingUser(r2, senderId, guildId) == Some(sender)
    requires senderId != recipientId
    ensures GetRacingUser(TransferToRecipient(r2, guildId, senderId, recipientId, sender, amount, now).1, u, g) ==
      if u == senderId && g == guildId then Some(sender.(credits := sender.credits - amount, updatedAt := now))
      else if u == recipientId && g == guildId then Some(recipient.(credits := recipient.credits + amount, updatedAt := now))
      else GetRacingUser(r2, u, g)
  {
    TransferToRecipientIs(r2, guildId, senderId, recipientId, sender, recipient, amount, now);
    TwoPatchesLookup(r2, guildId, senderId, sender, CreditsPatch(sender.credits - amount),
                     recipientId, recipient, CreditsPatch(recipient.credits + amount), now, u, g);
    CreditsPatched(sender, sender.credits - amount, now);
    CreditsPatched(recipient, recipient.credits + amount, now);
  }

  /** Every lookup after two writes to two different users' rows. */
  lemma TwoPatchesLookup(rows: seq<RacingUser>, guildId: Id, a: Id, x: RacingUser, p: RacingPatch,
                         b: Id, y: RacingUser, q: RacingPatch, now: int, u: Id, g: Id)
    requires GetRacingUser(rows, a, guildId) == Some(x) && GetRacingUser(rows, b, guildId) == Some(y)
    requires a != b
    ensures GetRacingUser(PatchedUsers(PatchedUsers(rows, a, guildId, p, now), b, guildId, q, now), u, g) ==
      if u == a && g == guildId then Some(ApplyRacingPatch(x, p, now))
      else if u == b && g == guildId then Some(ApplyRacingPatch(y, q, now))
      else GetRacingUser(rows, u, g)
  {
    var r3 := PatchedUsers(rows, a, guildId, p, now);
    GetPatched(r3, b, guildId, q, now, u, g);
    GetPatched(rows, a, guildId, p, now, u, g);
    GetPatched(rows, a, guildId, p, now, b, guildId);
  }

  /**
   * Two users' get-or-create steps in a row, the first of which yields a row: both see the row they
   * had or a new one, and no other lookup changes.
   */
  lemma PairEnrolments(rows: seq<RacingUser>, guildId: Id, a: Id, b: Id, now: int)
    requires a != b
    requires GetRacingUser(Enrolled(rows, a, guildId, now), a, guildId).Some?
    ensures var r1 := Enrolled(rows, a, guildId, now);
      var r2 := Enrolled(r1, b, guildId, now);
      GetRacingUser(r2, a, guildId) == GetRacingUser(r1, a, guildId) == Enrolment(rows, a, guildId, now) ==
        Some(SeenRow(rows, a, guildId, now)) &&
      (GetRacingUser(r2, b, guildId).Some? ==> GetRacingUser(r2, b, guildId) == Some(SeenRow(rows, b, guildId, now)))
    ensures forall u, g :: (u, g) != (a, guildId) && (u, g) != (b, guildId) ==>
      GetRacingUser(Enrolled(Enrolled(rows, a, guildId, now), b, guildId, now), u, g) == GetRacingUser(rows, u, g)
  {
    var r1 := Enrolled(rows, a, guildId, now);
    EnrolmentIs(rows, a, guildId, now);
    EnrolledLookup(r1, b, guildId, now, a, guildId);
    EnrolledLookup(rows, a, guildId, now, b, guildId);
    EnrolledLookup(r1, b, guildId, now, b, guildId);
    forall u, g | (u, g) != (a, guildId) && (u, g) != (b, guildId)
      ensures GetRacingUser(Enrolled(r1, b, guildId, now), u, g) == GetRacingUser(rows, u, g)
    {
      EnrolledLookup(rows, a, guildId, now, u, g);
      EnrolledLookup(r1, b, guildId, now, u, g);
    }
  }

  /**
   * A transfer moves exactly `amount` from the sender to the recipient: both balances are the ones
   * the command saw, only the credits and update stamp of the pair's rows change, and the pair's
   * total is unchanged.
   */
  lemma TransferMovesCredits(rows: seq<RacingUser>, guildId: Id, senderId: Id, recipientId: Id, recipientIsBot: bool,
                             amount: int, now: int)
    requires TransferEffect(rows, guildId, senderId, recipientId, recipientIsBot, amount, now).0.Transferred?
    ensures var (o, after) := TransferEffect(rows, guildId, senderId, recipientId, recipientIsBot, amount, now);
      BalanceOf(rows, senderId, guildId) >= amount &&
      GetRacingUser(after, senderId, guildId).Some? && GetRacingUser(after, recipientId, guildId).Some? &&
      o.senderBalance == BalanceOf(after, senderId, guildId) == BalanceOf(rows, senderId, guildId) - amount &&
      o.recipientBalance == BalanceOf(after, recipientId, guildId) == BalanceOf(rows, recipientId, guildId) + amount &&
      BalanceOf(after, senderId, guildId) + BalanceOf(after, recipientId, guildId) ==
        BalanceOf(rows, senderId, guildId) + BalanceOf(rows, recipientId, guildId)
    ensures var after := TransferEffect(rows, guildId, senderId, recipientId, recipientIsBot, amount, now).1;
      GetRacingUser(after, senderId, guildId).value ==
        Enrolment(rows, senderId, guildId, now).value.(credits := BalanceOf(rows, senderId, guildId) - amount,
                                                       updatedAt := now)
    ensures var after := TransferEffect(rows, guildId, senderId, recipientId, recipientIsBot, amount, now).1;
      forall u, g :: (u, g) != (senderId, guildId) && (u, g) != (recipientId, guildId) ==>
        GetRacingUser(after, u, g) == GetRacingUser(rows, u, g)
  {
    var r1 := Enrolled(rows, senderId, guildId, now);
    var sender := GetRacingUser(r1, senderId, guildId).value;
    var r2 := Enrolled(r1, recipientId, guildId, now);
    var recipient := GetRacingUser(r2, recipientId, guildId).value;
    PairEnrolments(rows, guildId, senderId, recipientId, now);
    PaidLookup(r2, guildId, senderId, recipientId, sender, recipient, amount, now, senderId, guildId);
    PaidLookup(r2, guildId, senderId, recipientId, sender, recipient, amount, now, recipientId, guildId);
    var after := TransferToRecipient(r2, guildId, senderId, recipientId, sender, amount, now).1;
    forall u, g | (u, g) != (senderId, guildId) && (u, g) != (recipientId, guildId)
      ensures GetRacingUser(after, u, g) == GetRacingUser(rows, u, g)
    {
      PaidLookup(r2, guildId, senderId, recipientId, sender, recipient, amount, now, u, g);
    }
  }

  /** The get-or-create step keeps the table sound and the user ids unique. */
  lemma EnrolledKeepsSound(rows: seq<RacingUser>, userId: Id, guildId: Id, now: int)
    requires Sound(rows) && UniqueUserIds(rows)
    ensures Sound(Enrolled(rows, userId, guildId, now)) && UniqueUserIds(Enrolled(rows, userId, guildId, now))
  {
  }

  /** With a positive amount a transfer keeps every row sound and the user ids unique. */
  lemma TransferKeepsSound(rows: seq<RacingUser>, guildId: Id, senderId: Id, recipientId: Id, recipientIsBot: bool,
                           amount: int, now: int)
    requires Sound(rows) && UniqueUserIds(rows) && amount >= 1
    ensures var after := TransferEffect(rows, guildId, senderId, recipientId, recipientIsBot, amount, now).1;
      Sound(after) && UniqueUserIds(after)
  {
    if recipientId != senderId && !recipientIsBot {
      var r1 := Enrolled(rows, senderId, guildId, now);
      EnrolledKeepsSound(rows, senderId, guildId, now);
      var sender := GetRacingUser(r1, senderId, guildId);
      if sender.Some? && sender.value.credits >= amount {
        var r2 := Enrolled(r1, recipientId, guildId, now);
        EnrolledKeepsSound(r1, recipientId, guildId, now);
        var recipient := GetRacingUser(r2, recipientId, guildId);
        if recipient.Some? {
          PairEnrolments(rows, guildId, senderId, recipientId, now);
          TransferToRecipientIs(r2, guildId, senderId, recipientId, sender.value, recipient.value, amount, now);
          var p1 := CreditsPatch(sender.value.credits - amount);
          var p2 := CreditsPatch(recipient.value.credits + amount);
          var r3 := PatchedUsers(r2, senderId, guildId, p1, now);
          CreditsPatched(sender.value, sender.value.credits - amount, now);
          GetRacingUserIn(r1, senderId, guildId);
          PatchKeepsSound(r2, senderId, guildId, p1, now);
          GetPatched(r2, senderId, guildId, p1, now, recipientId, guildId);
          CreditsPatched(recipient.value, recipient.value.credits + amount, now);
          GetRacingUserIn(r2, recipientId, guildId);
          PatchKeepsSound(r3, recipientId, guildId, p2, now);
        }
      }
    }
  }

  // ---------------------------------------------------------------- daily

  const OneHour := 60 * 60 * 1000
  const OneDay := 24 * OneHour
  const DailyBase := 200

  /** `Math.ceil(n / d)` for a positive divisor. */
  function CeilDiv(n: int, d: int): (q: int)
    requires d > 0
    ensures d * (q - 1) < n <= d * q
  {
    var k := (-n) / d;
    assert -n == d * k + (-n) % d;
    -k
  }

  /** `Math.min(daily_claimed * 10, 200)`: ten credits per earlier claim, at most 200. */
  function StreakBonus(claimed: int): (b: int)
    ensures claimed >= 0 ==> 0 <= b <= 200
    ensures b > 0 <==> claimed > 0
    ensures claimed >= 20 ==> b == 200
    ensures claimed <= 20 ==> b == 10 * claimed
  {
    Min(claimed * 10, 200)
  }

  datatype DailyOutcome =
    | DailyError
    | AlreadyClaimed(hoursLeft: int)
      /** `bonus` is the streak-bonus field, shown only for a positive bonus. */
    | Claimed(reward: int, streak: int, newBalance: int, bonus: Option<int>)

  /** `{ credits, daily_claimed, last_daily }` computed from the row read. */
  function DailyPatch(user: RacingUser, now: int): RacingPatch {
    NoRacingChange.(credits := Some(user.credits + DailyBase + StreakBonus(user.dailyClaimed)),
                    dailyClaimed := Some(user.dailyClaimed + 1), lastDaily := Some(now))
  }

  /** `/daily` after the get-or-create step, on the row it returned. */
  function ClaimDaily(r1: seq<RacingUser>, userId: Id, guildId: Id, user: RacingUser, now: int)
    : (DailyOutcome, seq<RacingUser>)
  {
    if now - user.lastDaily < OneDay then (AlreadyClaimed(CeilDiv(user.lastDaily + OneDay - now, OneHour)), r1)
    else
      var bonus := StreakBonus(user.dailyClaimed);
      (Claimed(DailyBase + bonus, user.dailyClaimed + 1, user.credits + DailyBase + bonus,
               if bonus > 0 then Some(bonus) else None),
       PatchedUsers(r1, userId, guildId, DailyPatch(user, now), now))
  }

  /** `/daily`: the get-or-create step, the 24-hour gate, then one write. */
  function DailyEffect(rows: seq<RacingUser>, userId: Id, guildId: Id, now: int): (DailyOutcome, seq<RacingUser>) {
    var r1 := Enrolled(rows, userId, guildId, now);
    var user := GetRacingUser(r1, userId, guildId);
    if user.None? then (DailyError, r1) else ClaimDaily(r1, userId, guildId, user.value, now)
  }

  method Daily(db: Database, userId: Id, guildId: Id, now: int) returns (o: DailyOutcome)
    requires db.Valid()
    modifies db`racingUsers
    ensures db.Valid()
    ensures o == DailyEffect(old(db.racingUsers), userId, guildId, now).0
    ensures db.racingUsers == DailyEffect(old(db.racingUsers), userId, guildId, now).1
  {
    var user := Enrol(db, userId, guildId, now);
    if user.None? {
      return DailyError;
    }
    var lastDaily := user.value.lastDaily;
    if now - lastDaily < OneDay {
      return AlreadyClaimed(CeilDiv(lastDaily + OneDay - now, OneHour));
    }
    var streakBonus := Min(user.value.dailyClaimed * 10, 200);
    var totalReward := DailyBase + streakBonus;
    db.UpdateRacingUser(userId, guildId,
                        NoRacingChange.(credits := Some(user.value.credits + totalReward),
                                        dailyClaimed := Some(user.value.dailyClaimed + 1), lastDaily := Some(now)),
                        now);
    o := Claimed(totalReward, user.value.dailyClaimed + 1, user.value.credits + totalReward,
                 if streakBonus > 0 then Some(streakBonus) else None);
  }

  /**
   * The gate: an error when no row can be had, a refusal within 24 hours of the last claim with
   * the whole hours left rounded up, and nothing written unless the claim goes through.
   */
  lemma DailyGate(rows: seq<RacingUser>, userId: Id, guildId: Id, now: int)
    ensures var (o, after) := DailyEffect(rows, userId, guildId, now);
      (o == DailyError <==> !CanEnrol(rows, userId, guildId)) &&
      (o.AlreadyClaimed? <==>
         CanEnrol(rows, userId, guildId) && now - Enrolment(rows, userId, guildId, now).value.lastDaily < OneDay) &&
      (!o.Claimed? ==> after == Enrolled(rows, userId, guildId, now))
    ensures var o := DailyEffect(rows, userId, guildId, now).0;
      o.AlreadyClaimed? ==>
        var last := Enrolment(rows, userId, guildId, now).value.lastDaily;
        o.hoursLeft >= 1 && OneHour * (o.hoursLeft - 1) < last + OneDay - now <= OneHour * o.hoursLeft &&
        (now >= last ==> o.hoursLeft <= 24)
  {
    EnrolmentIs(rows, userId, guildId, now);
  }

  /** A claim pays 200 plus the capped bonus on the balance read, counts one more claim and stamps the time. */
  lemma DailyClaimFacts(rows: seq<RacingUser>, userId: Id, guildId: Id, now: int)
    requires Sound(rows)
    requires DailyEffect(rows, userId, guildId, now).0.Claimed?
    ensures var (o, after) := DailyEffect(rows, userId, guildId, now);
      var before := Enrolment(rows, userId, guildId, now).value;
      DailyBase <= o.reward <= DailyBase + 200 &&
      o.streak == before.dailyClaimed + 1 &&
      o.newBalance == BalanceOf(rows, userId, guildId) + o.reward &&
      (o.bonus.None? <==> o.reward == DailyBase) &&
      (o.bonus.Some? ==> o.bonus.value == o.reward - DailyBase) &&
      GetRacingUser(after, userId, guildId) ==
        Some(before.(credits := o.newBalance, dailyClaimed := o.streak, lastDaily := now, updatedAt := now))
  {
    var r1 := Enrolled(rows, userId, guildId, now);
    var before := GetRacingUser(r1, userId, guildId).value;
    EnrolmentIs(rows, userId, guildId, now);
    EnrolledKeepsSoundRow(rows, userId, guildId, now);
    GetPatched(r1, userId, guildId, DailyPatch(before, now), now, userId, guildId);
  }

  /** A claim changes no other user's lookup. */
  lemma DailyLeavesOthers(rows: seq<RacingUser>, userId: Id, guildId: Id, now: int, u: Id, g: Id)
    requires (u, g) != (userId, guildId)
    ensures GetRacingUser(DailyEffect(rows, userId, guildId, now).1, u, g) == GetRacingUser(rows, u, g)
  {
    var r1 := Enrolled(rows, userId, guildId, now);
    EnrolledLookup(rows, userId, guildId, now, u, g);
    var user := GetRacingUser(r1, userId, guildId);
    if user.Some? {
      GetPatched(r1, userId, guildId, DailyPatch(user.value, now), now, u, g);
    }
  }

  /** Once claimed, `/daily` is refused, and writes nothing, until 24 hours have passed. */
  lemma ClaimOncePerDay(rows: seq<RacingUser>, userId: Id, guildId: Id, now: int, later: int)
    requires DailyEffect(rows, userId, guildId, now).0.Claimed?
    requires later - now < OneDay
    ensures var after := DailyEffect(rows, userId, guildId, now).1;
      DailyEffect(after, userId, guildId, later) == (AlreadyClaimed(CeilDiv(now + OneDay - later, OneHour)), after)
  {
    var r1 := Enrolled(rows, userId, guildId, now);
    var before := GetRacingUser(r1, userId, guildId).value;
    var after := DailyEffect(rows, userId, guildId, now).1;
    GetPatched(r1, userId, guildId, DailyPatch(before, now), now, userId, guildId);
    EnrolmentIs(after, userId, guildId, later);
  }

  /** A day after a claim the next one goes through again. */
  lemma ClaimAgainNextDay(rows: seq<RacingUser>, userId: Id, guildId: Id, now: int, later: int)
    requires DailyEffect(rows, userId, guildId, now).0.Claimed?
    requires later - now >= OneDay
    ensures DailyEffect(DailyEffect(rows, userId, guildId, now).1, userId, guildId, later).0.Claimed?
  {
    var r1 := Enrolled(rows, userId, guildId, now);
    var before := GetRacingUser(r1, userId, guildId).value;
    var after := DailyEffect(rows, userId, guildId, now).1;
    GetPatched(r1, userId, guildId, DailyPatch(before, now), now, userId, guildId);
    EnrolmentIs(after, userId, guildId, later);
  }

  /** A first-time user's first claim: 200 credits on the starting 1000, a streak of 1, no bonus field. */
  lemma FirstDaily(rows: seq<RacingUser>, userId: Id, guildId: Id, now: int)
    requires GetRacingUser(rows, userId, guildId).None? && !HasUserId(rows, userId)
    requires now >= OneDay
    ensures DailyEffect(rows, userId, guildId, now).0 == Claimed(200, 1, 1200, None)
  {
    EnrolmentIs(rows, userId, guildId, now);
  }

  /** The enrolled user's row is sound when the table was. */
  lemma EnrolledKeepsSoundRow(rows: seq<RacingUser>, userId: Id, guildId: Id, now: int)
    requires Sound(rows)
    ensures Enrolment(rows, userId, guildId, now).Some? ==> SoundRow(Enrolment(rows, userId, guildId, now).value)
  {
    EnrolledKeepsSoundAny(rows, userId, guildId, now);
    GetRacingUserIn(Enrolled(rows, userId, guildId, now), userId, guildId);
  }

  /** The get-or-create step keeps every row sound. */
  lemma EnrolledKeepsSoundAny(rows: seq<RacingUser>, userId: Id, guildId: Id, now: int)
    requires Sound(rows)
    ensures Sound(Enrolled(rows, userId, guildId, now))
  {
  }

  /** A claim keeps the table sound and the user ids unique. */
  lemma DailyKeepsSound(rows: seq<RacingUser>, userId: Id, guildId: Id, now: int)
    requires Sound(rows) && UniqueUserIds(rows)
    ensures Sound(DailyEffect(rows, userId, guildId, now).1) && UniqueUserIds(DailyEffect(rows, userId, guildId, now).1)
  {
    var r1 := Enrolled(rows, userId, guildId, now);
    EnrolledKeepsSound(rows, userId, guildId, now);
    var user := GetRacingUser(r1, userId, guildId);
    if user.Some? && now - user.value.lastDaily >= OneDay {
      GetRacingUserIn(r1, userId, guildId);
      PatchKeepsSound(r1, userId, guildId, DailyPatch(user.value, now), now);
    }
  }

  // ---------------------------------------------------------------- givecredits

  const AdminReward := "Admin reward"

  datatype GiveOutcome = CannotGiveToBot | GiveError | Given(newBalance: int, reason: string)

  /** `/givecredits user amount [reason]`: the bot check, the get-or-create step, then one write. */
  function GiveEffect(rows: seq<RacingUser>, guildId: Id, targetId: Id, targetIsBot: bool, amount: int,
                      reason: Option<string>, now: int): (GiveOutcome, seq<RacingUser>)
  {
    if targetIsBot then (CannotGiveToBot, rows)
    else
      var r1 := Enrolled(rows, targetId, guildId, now);
      var user := GetRacingUser(r1, targetId, guildId);
      if user.None? then (GiveError, r1)
      else (Given(user.value.credits + amount, Truthy(reason).GetOr(AdminReward)),
            PatchedUsers(r1, targetId, guildId, CreditsPatch(user.value.credits + amount), now))
  }

  method GiveCredits(db: Database, guildId: Id, targetId: Id, targetIsBot: bool, amount: int,
                     reason: Option<string>, now: int)
    returns (o: GiveOutcome)
    requires db.Valid()
    modifies db`racingUsers
    ensures db.Valid()
    ensures o == GiveEffect(old(db.racingUsers), guildId, targetId, targetIsBot, amount, reason, now).0
    ensures db.racingUsers == GiveEffect(old(db.racingUsers), guildId, targetId, targetIsBot, amount, reason, now).1
  {
    var shownReason := Truthy(reason).GetOr(AdminReward);
    if targetIsBot {
      return CannotGiveToBot;
    }
    var user := Enrol(db, targetId, guildId, now);
    if user.None? {
      return GiveError;
    }
    db.UpdateRacingUser(targetId, guildId, CreditsPatch(user.value.credits + amount), now);
    o := Given(user.value.credits + amount, shownReason);
  }

  /** Credits are given to anyone but a bot who can get a row, and then add exactly `amount` to that row alone. */
  lemma GiveAddsExactly(rows: seq<RacingUser>, guildId: Id, targetId: Id, targetIsBot: bool, amount: int,
                        reason: Option<string>, now: int)
    ensures var (o, after) := GiveEffect(rows, guildId, targetId, targetIsBot, amount, reason, now);
      (o == CannotGiveToBot <==> targetIsBot) &&
      (o == GiveError <==> !targetIsBot && !CanEnrol(rows, targetId, guildId)) &&
      (!o.Given? ==> after == rows || after == Enrolled(rows, targetId, guildId, now)) &&
      (o.Given? ==>
         o.newBalance == BalanceOf(rows, targetId, guildId) + amount == BalanceOf(after, targetId, guildId) &&
         (o.reason == AdminReward <==> reason.None? || reason.value == "" || reason.value == AdminReward) &&
         GetRacingUser(after, targetId, guildId) ==
           Some(Enrolment(rows, targetId, guildId, now).value.(credits := o.newBalance, updatedAt := now)))
  {
    EnrolmentIs(rows, targetId, guildId, now);
    var r1 := Enrolled(rows, targetId, guildId, now);
    var user := GetRacingUser(r1, targetId, guildId);
    if !targetIsBot && user.Some? {
      GetPatched(r1, targetId, guildId, CreditsPatch(user.value.credits + amount), now, targetId, guildId);
      CreditsPatched(user.value, user.value.credits + amount, now);
    }
  }

  /** Giving credits changes no other user's lookup. */
  lemma GiveLeavesOthers(rows: seq<RacingUser>, guildId: Id, targetId: Id, targetIsBot: bool, amount: int,
                         reason: Option<string>, now: int, u: Id, g: Id)
    requires (u, g) != (targetId, guildId)
    ensures GetRacingUser(GiveEffect(rows, guildId, targetId, targetIsBot, amount, reason, now).1, u, g) ==
      GetRacingUser(rows, u, g)
  {
    if !targetIsBot {
      var r1 := Enrolled(rows, targetId, guildId, now);
      EnrolledLookup(rows, targetId, guildId, now, u, g);
      var user := GetRacingUser(r1, targetId, guildId);
      if user.Some? {
        GetPatched(r1, targetId, guildId, CreditsPatch(user.value.credits + amount), now, u, g);
      }
    }
  }

  /** A non-negative gift keeps the table sound and the user ids unique. */
  lemma GiveKeepsSound(rows: seq<RacingUser>, guildId: Id, targetId: Id, targetIsBot: bool, amount: int,
                       reason: Option<string>, now: int)
    requires Sound(rows) && UniqueUserIds(rows) && amount >= 0
    ensures var after := GiveEffect(rows, guildId, targetId, targetIsBot, amount, reason, now).1;
      Sound(after) && UniqueUserIds(after)
  {
    if !targetIsBot {
      var r1 := Enrolled(rows, targetId, guildId, now);
      EnrolledKeepsSound(rows, targetId, guildId, now);
      var user := GetRacingUser(r1, targetId, guildId);
      if user.Some? {
        GetRacingUserIn(r1, targetId, guildId);
        CreditsPatched(user.value, user.value.credits + amount, now);
        PatchKeepsSound(r1, targetId, guildId, CreditsPatch(user.value.credits + amount), now);
      }
    }
  }

  // ---------------------------------------------------------------- resetstats

  datatype ResetOutcome = NoRacingData | StatsReset(typeLabel: string)

  /** The reset object for each type; any other type leaves it empty. */
  function ResetPatch(resetType: string): RacingPatch {
    if resetType == "all" then RacingPatch(Some(1000), Some(0), Some(0), Some(0), Some(0), Some(0))
    else if resetType == "credits" then NoRacingChange.(credits := Some(1000))
    else if resetType == "wins" then NoRacingChange.(totalRaces := Some(0), wins := Some(0), losses := Some(0))
    else if resetType == "daily" then NoRacingChange.(dailyClaimed := Some(0), lastDaily := Some(0))
    else NoRacingChange
  }

  /** The columns each reset type puts back. */
  function ResetColumns(resetType: string): set<Column> {
    if resetType == "all" then {Credits, TotalRaces, Wins, Losses, DailyClaimed, LastDaily}
    else if resetType == "credits" then {Credits}
    else if resetType == "wins" then {TotalRaces, Wins, Losses}
    else if resetType == "daily" then {DailyClaimed, LastDaily}
    else {}
  }

  /** The value a column starts with in a new row. */
  function DefaultValue(c: Column): int {
    if c == Credits then 1000 else 0
  }

  /** Each reset type sets exactly its columns, each to the value a new row starts with. */
  lemma ResetPatchColumns(resetType: string, c: Column, userId: Id, guildId: Id, now: int)
    ensures PatchValue(ResetPatch(resetType), c) ==
      if c in ResetColumns(resetType) then Some(DefaultValue(c)) else None
    ensures DefaultValue(c) == ColumnValue(NewRacingUser(userId, guildId, now), c)
  {
  }

  /** `/resetstats user type`: the lookup (no row is created), then one write. */
  function ResetEffect(rows: seq<RacingUser>, userId: Id, guildId: Id, resetType: string, now: int)
    : (ResetOutcome, seq<RacingUser>)
  {
    if GetRacingUser(rows, userId, guildId).None? then (NoRacingData, rows)
    else (StatsReset(Capitalize(resetType)), PatchedUsers(rows, userId, guildId, ResetPatch(resetType), now))
  }

  method ResetStats(db: Database, userId: Id, guildId: Id, resetType: string, now: int) returns (o: ResetOutcome)
    requires db.Valid()
    modifies db`racingUsers
    ensures db.Valid()
    ensures o == ResetEffect(old(db.racingUsers), userId, guildId, resetType, now).0
    ensures db.racingUsers == ResetEffect(old(db.racingUsers), userId, guildId, resetType, now).1
  {
    var user := GetRacingUser(db.racingUsers, userId, guildId);
    if user.None? {
      return NoRacingData;
    }
    var resetData := NoRacingChange;
    if resetType == "all" {
      resetData := RacingPatch(Some(1000), Some(0), Some(0), Some(0), Some(0), Some(0));
    } else if resetType == "credits" {
      resetData := NoRacingChange.(credits := Some(1000));
    } else if resetType == "wins" {
      resetData := NoRacingChange.(totalRaces := Some(0), wins := Some(0), losses := Some(0));
    } else if resetType == "daily" {
      resetData := NoRacingChange.(dailyClaimed := Some(0), lastDaily := Some(0));
    }
    db.UpdateRacingUser(userId, guildId, resetData, now);
    o := StatsReset(Capitalize(resetType));
  }

  /**
   * A reset needs an existing row; it puts the type's columns back to their starting values and
   * leaves the other columns, the ids and the creation stamp as they were.
   */
  lemma ResetRestores(rows: seq<RacingUser>, userId: Id, guildId: Id, resetType: string, now: int)
    ensures var (o, after) := ResetEffect(rows, userId, guildId, resetType, now);
      (o == NoRacingData <==> GetRacingUser(rows, userId, guildId).None?) &&
      (o == NoRacingData ==> after == rows) &&
      (o.StatsReset? ==> |o.typeLabel| == |resetType|) &&
      (o.StatsReset? ==>
         var before := GetRacingUser(rows, userId, guildId).value;
         GetRacingUser(after, userId, guildId).Some? &&
         var x := GetRacingUser(after, userId, guildId).value;
         x.userId == userId && x.guildId == guildId && x.createdAt == before.createdAt && x.updatedAt == now &&
         forall c :: ColumnValue(x, c) == if c in ResetColumns(resetType) then DefaultValue(c) else ColumnValue(before, c))
  {
    var user := GetRacingUser(rows, userId, guildId);
    if user.Some? {
      GetPatched(rows, userId, guildId, ResetPatch(resetType), now, userId, guildId);
      forall c ensures PatchValue(ResetPatch(resetType), c) ==
                       if c in ResetColumns(resetType) then Some(DefaultValue(c)) else None {
        ResetPatchColumns(resetType, c, userId, guildId, now);
      }
    }
  }

  /** Resetting everything leaves the row a new row would be, created at the original time. */
  lemma ResetAllIsNewRow(rows: seq<RacingUser>, userId: Id, guildId: Id, now: int)
    requires GetRacingUser(rows, userId, guildId).Some?
    ensures GetRacingUser(ResetEffect(rows, userId, guildId, "all", now).1, userId, guildId) ==
      Some(NewRacingUser(userId, guildId, GetRacingUser(rows, userId, guildId).value.createdAt).(updatedAt := now))
  {
    GetPatched(rows, userId, guildId, ResetPatch("all"), now, userId, guildId);
  }

  /** A reset changes no other user's lookup. */
  lemma ResetLeavesOthers(rows: seq<RacingUser>, userId: Id, guildId: Id, resetType: string, now: int, u: Id, g: Id)
    requires (u, g) != (userId, guildId)
    ensures GetRacingUser(ResetEffect(rows, userId, guildId, resetType, now).1, u, g) == GetRacingUser(rows, u, g)
  {
    GetPatched(rows, userId, guildId, ResetPatch(resetType), now, u, g);
  }

  /** Every reset type keeps the table sound and the user ids unique. */
  lemma ResetKeepsSound(rows: seq<RacingUser>, userId: Id, guildId: Id, resetType: string, now: int)
    requires Sound(rows) && UniqueUserIds(rows)
    ensures Sound(ResetEffect(rows, userId, guildId, resetType, now).1)
    ensures UniqueUserIds(ResetEffect(rows, userId, guildId, resetType, now).1)
  {
    var user := GetRacingUser(rows, userId, guildId);
    if user.Some? {
      GetRacingUserIn(rows, userId, guildId);
      PatchKeepsSound(rows, userId, guildId, ResetPatch(resetType), now);
    }
  }
}
