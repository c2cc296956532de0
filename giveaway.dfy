/**
 * The `/giveaway` command and the join button: a giveaway is created active with no entrants,
 * collects distinct entrants until it ends, and ends once; winners are the first entries of a
 * shuffled copy of the entrant list. The end-of-giveaway timer is the caller invoking
 * `EndGiveaway` once the delay `Start` scheduled has passed; that delay is the duration only up
 * to the largest delay a timer accepts, and a longer giveaway ends after one millisecond.
 */
module Giveaways {
  import opened Common
  import opened Store
  import opened Duration
  import Text

  // ---------------------------------------------------------------- looking a giveaway up

  /** Updating the participants of a message's rows is what `getGiveaway` then sees. */
  lemma {:induction false} GetWithParticipants(rows: seq<GiveawayRow>, messageId: Id, participants: seq<Id>)
    ensures GetGiveaway(WithParticipants(rows, messageId, participants), messageId) ==
      if GetGiveaway(rows, messageId).Some?
      then Some(GetGiveaway(rows, messageId).value.(participants := participants)) else None
    decreases |rows|
  {
    if rows != [] {
      assert WithParticipants(rows, messageId, participants)[1..] == WithParticipants(rows[1..], messageId, participants);
      GetWithParticipants(rows[1..], messageId, participants);
    }
  }

  /** Ending a message's rows is what `getGiveaway` then sees. */
  lemma {:induction false} GetDeactivated(rows: seq<GiveawayRow>, messageId: Id)
    ensures GetGiveaway(Deactivated(rows, messageId), messageId) ==
      if GetGiveaway(rows, messageId).Some? then Some(GetGiveaway(rows, messageId).value.(active := false)) else None
    decreases |rows|
  {
    if rows != [] {
      assert Deactivated(rows, messageId)[1..] == Deactivated(rows[1..], messageId);
      GetDeactivated(rows[1..], messageId);
    }
  }

  /** A row appended under a fresh message id is the one `getGiveaway` finds. */
  lemma {:induction false} GetAppendedFresh(rows: seq<GiveawayRow>, row: GiveawayRow)
    requires GetGiveaway(rows, row.messageId).None?
    ensures GetGiveaway(rows + [row], row.messageId) == Some(row)
    decreases |rows|
  {
    if rows != [] {
      assert (rows + [row])[1..] == rows[1..] + [row];
      GetAppendedFresh(rows[1..], row);
    }
  }

  // ---------------------------------------------------------------- start

  /** The `winners` option: an integer 1..10 when given. */
  predicate WinnersOption(winners: Option<int>) {
    winners.Some? ==> 1 <= winners.value <= 10
  }

  /** `getInteger('winners') || 1`. */
  function WinnerCount(winners: Option<int>): (w: int)
    requires WinnersOption(winners)
    ensures 1 <= w <= 10 && w == winners.GetOr(1)
  {
    if TruthyInt(winners) then winners.value else 1
  }

  /** `timerDelay` is the delay after which the end-of-giveaway timer actually fires. */
  datatype StartOutcome = InvalidDuration | Started(endTime: int, timerDelay: nat)

  /** The largest delay `setTimeout` honours (2^31 - 1 ms, about 24.8 days). */
  const MaxTimerDelay := 2147483647

  /** The delay `setTimeout(f, ms)` waits: any delay outside 1..2^31 - 1 ms runs after 1 ms instead. */
  function TimerDelay(ms: int): nat {
    if 1 <= ms <= MaxTimerDelay then ms else 1
  }

  /**
   * Every accepted duration up to the timer's limit is waited in full; every longer one, which the
   * one-minute-to-28-days window still lets through, makes the timer fire after one millisecond.
   */
  lemma TimerDelayOfAccepted(ms: int)
    requires InWindow(ms)
    ensures TimerDelay(ms) <= ms
    ensures TimerDelay(ms) == ms <==> ms <= MaxTimerDelay
    ensures ms > MaxTimerDelay ==> TimerDelay(ms) == 1
  {
  }

  /** `28d`, the longest duration accepted, is a giveaway whose timer ends it at once. */
  lemma TwentyEightDaysEndsAtOnce()
    ensures InWindow(Scan("28d", 0)) && Scan("28d", 0) == 2419200000
    ensures TimerDelay(Scan("28d", 0)) == 1
  {
    assert Text.DigitChar(2) == '2' && Text.DigitChar(8) == '8';
    assert Text.NatStr(28) == Text.NatStr(2) + [Text.DigitChar(8)];
    assert Text.NatStr(28) + ['d'] == "28d";
    OneComponent(28, 'd');
    assert UnitMs('d') == 86400000;
  }

  /**
   * `handleStart`: a duration outside one minute to 28 days is refused before anything is
   * stored; otherwise the giveaway row is created active with no entrants, ending `durationMs` from now.
   */
  method Start(db: Database, messageId: Id, channelId: Id, guildId: Id, creatorId: Id,
               duration: string, prize: string, winners: Option<int>, now: int)
    returns (o: StartOutcome)
    requires WinnersOption(winners)
    modifies db`giveaways
    ensures o == InvalidDuration <==> !InWindow(Scan(duration, 0))
    ensures o == InvalidDuration ==> db.giveaways == old(db.giveaways)
    ensures o.Started? ==>
      o.endTime == now + Scan(duration, 0) && 60000 <= o.endTime - now <= 2419200000 &&
      o.timerDelay == TimerDelay(Scan(duration, 0)) &&
      db.giveaways == old(db.giveaways) +
        [GiveawayRow(messageId, channelId, guildId, prize, WinnerCount(winners), o.endTime, creatorId, true, [])]
  {
    var count := WinnerCount(winners);
    var durationMs := ParseDuration(duration);
    if durationMs == 0 || durationMs < 60000 || durationMs > 2419200000 {
      return InvalidDuration;
    }
    var endTime := now + durationMs;
    var _ := db.CreateGiveaway(messageId, channelId, guildId, prize, count, endTime, creatorId);
    o := Started(endTime, TimerDelay(durationMs));
  }

  // ---------------------------------------------------------------- winner selection

  /** `slice(0, n)`: a negative end counts back from the length. */
  function SliceTo<T>(s: seq<T>, n: int): (r: seq<T>)
    ensures n >= 0 ==> |r| == Min(n, |s|)
    ensures n < 0 ==> |r| == if |s| + n < 0 then 0 else |s| + n
    ensures |r| <= |s| && r == s[..|r|]
  {
    if n >= 0 then Take(s, n) else if |s| + n < 0 then [] else s[..|s| + n]
  }

  /**
   * `selectWinners`: `shuffled` is the sorted copy, some permutation of the entrants (the
   * comparator is random, so no order is promised); the winners are its first `winnerCount`.
   */
  function SelectWinners(participants: seq<Id>, shuffled: seq<Id>, winnerCount: int): (w: seq<Id>)
    requires multiset(shuffled) == multiset(participants)
    ensures multiset(w) <= multiset(participants)
    ensures forall x :: x in w ==> x in participants
    ensures winnerCount >= 0 ==> |w| == Min(winnerCount, |participants|)
    ensures NoDuplicates(participants) ==> NoDuplicates(w)
  {
    var w := SliceTo(shuffled, winnerCount);
    assert shuffled == w + shuffled[|w|..];
    assert multiset(shuffled) == multiset(w) + multiset(shuffled[|w|..]);
    assert forall x :: x in w ==> x in multiset(w);
    assert |shuffled| == |multiset(shuffled)|;
    NoDuplicatesMultiset(participants);
    NoDuplicatesMultiset(w);
    w
  }

  /** Every entrant wins when there are no more entrants than winners. */
  lemma AllWinWhenFew(participants: seq<Id>, shuffled: seq<Id>, winnerCount: int)
    requires multiset(shuffled) == multiset(participants)
    requires |participants| <= winnerCount
    ensures multiset(SelectWinners(participants, shuffled, winnerCount)) == multiset(participants)
  {
    assert |shuffled| == |multiset(shuffled)|;
    assert SelectWinners(participants, shuffled, winnerCount) == shuffled;
  }

  // ---------------------------------------------------------------- end and reroll

  datatype EndOutcome = EndSkipped | EndFailed | EndedWithoutEntrants | EndedWithWinners(winners: seq<Id>)

  /** What `endGiveaway` does with the row it read; `editFails` is the message fetch or edit throwing. */
  function EndOutcomeOf(g: Option<GiveawayRow>, shuffled: seq<Id>, editFails: bool): (o: EndOutcome)
    requires g.Some? ==> multiset(shuffled) == multiset(g.value.participants)
    ensures o == EndSkipped <==> g.None? || !g.value.active
    ensures o == EndFailed <==> g.Some? && g.value.active && editFails
    ensures o == EndedWithoutEntrants <==> g.Some? && g.value.active && !editFails && g.value.participants == []
    ensures o.EndedWithWinners? ==>
      g.Some? && g.value.active && !editFails && g.value.participants != [] &&
      o.winners == SelectWinners(g.value.participants, shuffled, g.value.winners)
  {
    if g.None? || !g.value.active then EndSkipped
    else if editFails then EndFailed
    else if g.value.participants == [] then EndedWithoutEntrants
    else EndedWithWinners(SelectWinners(g.value.participants, shuffled, g.value.winners))
  }

  /** `endGiveaway`: the row is set inactive only after the message edit went through. */
  method EndGiveaway(db: Database, messageId: Id, shuffled: seq<Id>, editFails: bool) returns (o: EndOutcome)
    requires GetGiveaway(db.giveaways, messageId).Some? ==>
      multiset(shuffled) == multiset(GetGiveaway(db.giveaways, messageId).value.participants)
    modifies db`giveaways
    ensures o == EndOutcomeOf(GetGiveaway(old(db.giveaways), messageId), shuffled, editFails)
    ensures o.EndedWithoutEntrants? || o.EndedWithWinners? ==> db.giveaways == Deactivated(old(db.giveaways), messageId)
    ensures o.EndSkipped? || o.EndFailed? ==> db.giveaways == old(db.giveaways)
  {
    var g := GetGiveaway(db.giveaways, messageId);
    if g.None? || !g.value.active {
      return EndSkipped;
    }
    if editFails {
      return EndFailed;
    }
    if |g.value.participants| == 0 {
      db.EndGiveaway(messageId);
      return EndedWithoutEntrants;
    }
    var winners := SelectWinners(g.value.participants, shuffled, g.value.winners);
    db.EndGiveaway(messageId);
    o := EndedWithWinners(winners);
  }

  /** Once ended, a giveaway stays ended: the timer firing after a manual end does nothing. */
  lemma SecondEndIsSkipped(rows: seq<GiveawayRow>, messageId: Id, shuffled: seq<Id>, editFails: bool)
    requires GetGiveaway(rows, messageId).Some? ==>
      multiset(shuffled) == multiset(GetGiveaway(rows, messageId).value.participants)
    ensures GetGiveaway(Deactivated(rows, messageId), messageId).Some? ==>
      multiset(shuffled) == multiset(GetGiveaway(Deactivated(rows, messageId), messageId).value.participants)
    ensures EndOutcomeOf(GetGiveaway(Deactivated(rows, messageId), messageId), shuffled, editFails) == EndSkipped
  {
    GetDeactivated(rows, messageId);
  }

  datatype HandleEndOutcome = MessageNotFound | EndedEarly(end: EndOutcome)

  /** `handleEnd`: the message must be fetched; then `endGiveaway` runs and the reply is sent either way. */
  method HandleEnd(db: Database, messageId: Id, messageFound: bool, shuffled: seq<Id>, editFails: bool)
    returns (o: HandleEndOutcome)
    requires GetGiveaway(db.giveaways, messageId).Some? ==>
      multiset(shuffled) == multiset(GetGiveaway(db.giveaways, messageId).value.participants)
    modifies db`giveaways
    ensures !messageFound <==> o == MessageNotFound
    ensures !messageFound ==> db.giveaways == old(db.giveaways)
    ensures messageFound ==> o == EndedEarly(EndOutcomeOf(GetGiveaway(old(db.giveaways), messageId), shuffled, editFails))
  {
    if !messageFound {
      return MessageNotFound;
    }
    var e := EndGiveaway(db, messageId, shuffled, editFails);
    o := EndedEarly(e);
  }

  datatype RerollOutcome = RerollSkipped | NoEntrantsToReroll | Rerolled(winners: seq<Id>)

  /** `rerollGiveaway`: draws again from any stored giveaway, active or not, and writes nothing. */
  function RerollOutcomeOf(g: Option<GiveawayRow>, shuffled: seq<Id>): (o: RerollOutcome)
    requires g.Some? ==> multiset(shuffled) == multiset(g.value.participants)
    ensures o == RerollSkipped <==> g.None?
    ensures o == NoEntrantsToReroll <==> g.Some? && g.value.participants == []
    ensures o.Rerolled? ==>
      g.Some? && g.value.participants != [] &&
      o.winners == SelectWinners(g.value.participants, shuffled, g.value.winners)
  {
    if g.None? then RerollSkipped
    else if g.value.participants == [] then NoEntrantsToReroll
    else Rerolled(SelectWinners(g.value.participants, shuffled, g.value.winners))
  }

  /** An ended giveaway can be rerolled exactly as before it ended. */
  lemma RerollIgnoresActive(rows: seq<GiveawayRow>, messageId: Id, shuffled: seq<Id>)
    requires GetGiveaway(rows, messageId).Some? ==>
      multiset(shuffled) == multiset(GetGiveaway(rows, messageId).value.participants)
    ensures GetGiveaway(Deactivated(rows, messageId), messageId).Some? ==>
      multiset(shuffled) == multiset(GetGiveaway(Deactivated(rows, messageId), messageId).value.participants)
    ensures RerollOutcomeOf(GetGiveaway(Deactivated(rows, messageId), messageId), shuffled) ==
      RerollOutcomeOf(GetGiveaway(rows, messageId), shuffled)
  {
    GetDeactivated(rows, messageId);
  }

  // ---------------------------------------------------------------- joining

  datatype JoinOutcome = GiveawayNotFound | GiveawayEnded | AlreadyJoined | JoinedGiveaway(participantCount: nat)

  /** The join button's replies in guard order; `end_time == now` is still open. */
  function JoinReply(g: Option<GiveawayRow>, userId: Id, now: int): (o: JoinOutcome)
    ensures o == GiveawayNotFound <==> g.None? || !g.value.active
    ensures o == GiveawayEnded <==> g.Some? && g.value.active && g.value.endTime < now
    ensures o == AlreadyJoined <==> g.Some? && g.value.active && g.value.endTime >= now && userId in g.value.participants
    ensures o.JoinedGiveaway? ==>
      g.Some? && g.value.active && g.value.endTime >= now && userId !in g.value.participants &&
      o.participantCount == |g.value.participants| + 1
  {
    if g.None? || !g.value.active then GiveawayNotFound
    else if g.value.endTime < now then GiveawayEnded
    else if userId in g.value.participants then AlreadyJoined
    else JoinedGiveaway(|g.value.participants| + 1)
  }

  /** `handleJoinGiveaway`: a new entrant is appended to the row's list, which is written back. */
  method JoinGiveaway(db: Database, messageId: Id, userId: Id, now: int) returns (o: JoinOutcome)
    modifies db`giveaways
    ensures o == JoinReply(GetGiveaway(old(db.giveaways), messageId), userId, now)
    ensures o.JoinedGiveaway? ==>
      db.giveaways == WithParticipants(old(db.giveaways), messageId,
                                       GetGiveaway(old(db.giveaways), messageId).value.participants + [userId])
    ensures !o.JoinedGiveaway? ==> db.giveaways == old(db.giveaways)
  {
    var g := GetGiveaway(db.giveaways, messageId);
    if g.None? || !g.value.active {
      return GiveawayNotFound;
    }
    if g.value.endTime < now {
      return GiveawayEnded;
    }
    var participants := g.value.participants;
    if userId in participants {
      return AlreadyJoined;
    }
    participants := participants + [userId];
    db.UpdateGiveawayParticipants(messageId, participants);
    o := JoinedGiveaway(|participants|);
  }

  /** Every giveaway's entrant list is duplicate-free. */
  predicate DistinctEntrants(rows: seq<GiveawayRow>) {
    forall i :: 0 <= i < |rows| ==> NoDuplicates(rows[i].participants)
  }

  /** A successful join keeps every entrant list duplicate-free. */
  lemma JoinKeepsEntrantsDistinct(rows: seq<GiveawayRow>, messageId: Id, userId: Id, now: int)
    requires DistinctEntrants(rows)
    requires JoinReply(GetGiveaway(rows, messageId), userId, now).JoinedGiveaway?
    ensures DistinctEntrants(WithParticipants(rows, messageId, GetGiveaway(rows, messageId).value.participants + [userId]))
  {
    var g := GetGiveaway(rows, messageId).value;
    var ps := g.participants + [userId];
    var i :| 0 <= i < |rows| && rows[i] == g;
    assert NoDuplicates(g.participants);
    forall a, b | 0 <= a < b < |ps|
      ensures ps[a] != ps[b]
    {
      if b == |g.participants| {
        assert ps[a] in g.participants;
      }
    }
  }

  /** Joining twice is joining once: the second press, while the giveaway is open, is refused. */
  lemma JoinIsIdempotent(rows: seq<GiveawayRow>, messageId: Id, userId: Id, now: int, later: int)
    requires JoinReply(GetGiveaway(rows, messageId), userId, now).JoinedGiveaway?
    requires later <= GetGiveaway(rows, messageId).value.endTime
    ensures JoinReply(GetGiveaway(WithParticipants(rows, messageId, GetGiveaway(rows, messageId).value.participants + [userId]),
                                  messageId), userId, later) == AlreadyJoined
  {
    GetWithParticipants(rows, messageId, GetGiveaway(rows, messageId).value.participants + [userId]);
  }

  /** The first press on a freshly started giveaway counts one entrant. */
  lemma StartThenJoin(rows: seq<GiveawayRow>, row: GiveawayRow, userId: Id, now: int)
    requires GetGiveaway(rows, row.messageId).None?
    requires row.active && row.participants == [] && now <= row.endTime
    ensures JoinReply(GetGiveaway(rows + [row], row.messageId), userId, now) == JoinedGiveaway(1)
  {
    GetAppendedFresh(rows, row);
  }
}
