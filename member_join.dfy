/**
 * The member-join handler: the auto-role grant, then the anti-raid rule, which counts the
 * guild's raid rows inside the window, logs the join and bans once the count reaches the threshold.
 */
module MemberJoin {
  import opened Common
  import opened Store
  import opened GuildConfig

  /** What the handler asks of the platform, in order. */
  datatype JoinEffect = RoleAdded(roleId: Id) | Banned | NoticeSent(channelId: Id)

  /** The ban rule: enough of the guild's rows are newer than `now - timeframe` before this join is logged. */
  predicate RaidTriggered(s: SettingsRow, raids: seq<RaidRow>, guildId: Id, now: int) {
    |GetRecentRaidActions(raids, guildId, s.antiRaidTimeframe, now)| >= s.antiRaidThreshold
  }

  /** The platform requests the handler makes for one join, given the settings row it read. */
  function JoinEffects(settings: Option<SettingsRow>, triggered: bool, roles: map<Id, Role>, channels: set<Id>,
                       addRoleFails: bool, banFails: bool): (effects: seq<JoinEffect>)
    ensures settings.None? ==> effects == []
    ensures forall r :: RoleAdded(r) in effects <==>
      settings.Some? && IsSet(settings.value.autoRoleId) && r == settings.value.autoRoleId.value &&
      r in roles && !addRoleFails
    ensures Banned in effects <==> settings.Some? && settings.value.antiRaidEnabled && triggered && !banFails
    ensures forall c :: NoticeSent(c) in effects <==>
      Banned in effects && IsSet(settings.value.logChannelId) && c == settings.value.logChannelId.value && c in channels
    ensures forall i :: 0 < i < |effects| ==> !effects[i].RoleAdded?
    ensures NoDuplicates(effects)
  {
    if settings.None? then []
    else
      var s := settings.value;
      var grant := if IsSet(s.autoRoleId) && s.autoRoleId.value in roles && !addRoleFails
                   then [RoleAdded(s.autoRoleId.value)] else [];
      var ban := if s.antiRaidEnabled && triggered && !banFails then [Banned] else [];
      var notice := if ban != [] && IsSet(s.logChannelId) && s.logChannelId.value in channels
                    then [NoticeSent(s.logChannelId.value)] else [];
      grant + ban + notice
  }

  /**
   * `guildMemberAdd`. With anti-raid enabled exactly one `JOIN` row is appended in both
   * branches; in the ban branch it is written before the ban, so a failed ban leaves it in place.
   */
  method OnMemberJoin(db: Database, guildId: Id, memberId: Id, roles: map<Id, Role>, channels: set<Id>,
                      addRoleFails: bool, banFails: bool, now: int)
    returns (effects: seq<JoinEffect>)
    requires db.Valid()
    modifies db`raids
    ensures db.Valid()
    ensures var s := GetGuildSettings(db.settings, guildId);
      effects == JoinEffects(s, s.Some? && RaidTriggered(s.value, old(db.raids), guildId, now),
                             roles, channels, addRoleFails, banFails)
    ensures var s := GetGuildSettings(db.settings, guildId);
      db.raids == if s.Some? && s.value.antiRaidEnabled
                  then old(db.raids) + [RaidRow(guildId, memberId, "JOIN", now, None)]
                  else old(db.raids)
  {
    var settings := GetGuildSettings(db.settings, guildId);
    ghost var triggered := settings.Some? && RaidTriggered(settings.value, db.raids, guildId, now);
    var grant: seq<JoinEffect> := [];
    if settings.Some? && IsSet(settings.value.autoRoleId) {
      if settings.value.autoRoleId.value in roles && !addRoleFails {
        grant := [RoleAdded(settings.value.autoRoleId.value)];
      }
    }
    var ban: seq<JoinEffect> := [];
    var notice: seq<JoinEffect> := [];
    if settings.Some? && settings.value.antiRaidEnabled {
      var s := settings.value;
      var recent := GetRecentRaidActions(db.raids, guildId, s.antiRaidTimeframe, now);
      if |recent| >= s.antiRaidThreshold {
        var _ := db.LogRaidAction(guildId, memberId, "JOIN", now, None);
        if !banFails {
          ban := [Banned];
          if IsSet(s.logChannelId) && s.logChannelId.value in channels {
            notice := [NoticeSent(s.logChannelId.value)];
          }
        }
      } else {
        var _ := db.LogRaidAction(guildId, memberId, "JOIN", now, None);
      }
    }
    effects := grant + ban + notice;
    assert effects == JoinEffects(settings, triggered, roles, channels, addRoleFails, banFails);
  }

  // ---------------------------------------------------------------- a burst of joins

  /** One join of the burst: who joined and when. */
  datatype Join = Join(memberId: Id, at: int)

  /** The rows the handler appends for a sequence of joins while anti-raid stays enabled. */
  function JoinRows(guildId: Id, joins: seq<Join>): (rows: seq<RaidRow>)
    ensures |rows| == |joins|
    ensures forall i :: 0 <= i < |rows| ==> rows[i] == RaidRow(guildId, joins[i].memberId, "JOIN", joins[i].at, None)
  {
    seq(|joins|, i requires 0 <= i < |joins| => RaidRow(guildId, joins[i].memberId, "JOIN", joins[i].at, None))
  }

  /** Joins in time order, all within one window of the first. */
  predicate Burst(joins: seq<Join>, timeframe: int) {
    (forall i, j :: 0 <= i < j < |joins| ==> joins[i].at <= joins[j].at) &&
    (forall i :: 0 <= i < |joins| ==> joins[i].at - joins[0].at < timeframe)
  }

  /** Before join `k` of a burst that starts on a clean window, the window holds exactly the `k` earlier joins. */
  lemma WindowCountsEarlierJoins(raids: seq<RaidRow>, guildId: Id, timeframe: int, joins: seq<Join>, k: nat)
    requires Burst(joins, timeframe) && k < |joins|
    requires GetRecentRaidActions(raids, guildId, timeframe, joins[0].at) == []
    ensures |GetRecentRaidActions(raids + JoinRows(guildId, joins[..k]), guildId, timeframe, joins[k].at)| == k
  {
    var now := joins[k].at;
    var earlier := JoinRows(guildId, joins[..k]);
    var r := GetRecentRaidActions(raids + earlier, guildId, timeframe, now);
    OldRowsOutOfWindow(raids, guildId, timeframe, joins, k);
    EarlierRowsInWindow(guildId, timeframe, joins, k);
    forall x
      ensures multiset(r)[x] == multiset(earlier)[x]
    {
      assert multiset(raids + earlier)[x] == multiset(raids)[x] + multiset(earlier)[x];
      if x.guildId == guildId && x.timestamp > now - timeframe {
        assert x !in raids;
      }
    }
    assert multiset(r) == multiset(earlier);
    assert |r| == |multiset(r)|;
  }

  /** A row of the guild already in the table when the burst starts is out of the window at join `k`. */
  lemma OldRowsOutOfWindow(raids: seq<RaidRow>, guildId: Id, timeframe: int, joins: seq<Join>, k: nat)
    requires Burst(joins, timeframe) && k < |joins|
    requires GetRecentRaidActions(raids, guildId, timeframe, joins[0].at) == []
    ensures forall x :: x in raids && x.guildId == guildId ==> x.timestamp <= joins[k].at - timeframe
  {
    if k > 0 {
      assert joins[0].at <= joins[k].at;
    }
    forall x | x in raids && x.guildId == guildId
      ensures x.timestamp <= joins[k].at - timeframe
    {
      assert x !in GetRecentRaidActions(raids, guildId, timeframe, joins[0].at);
    }
  }

  /** Every row the earlier joins of the burst appended is in the window at join `k`. */
  lemma EarlierRowsInWindow(guildId: Id, timeframe: int, joins: seq<Join>, k: nat)
    requires Burst(joins, timeframe) && k < |joins|
    ensures forall x :: x in JoinRows(guildId, joins[..k]) ==> x.guildId == guildId && x.timestamp > joins[k].at - timeframe
  {
    var earlier := JoinRows(guildId, joins[..k]);
    forall x | x in earlier
      ensures x.guildId == guildId && x.timestamp > joins[k].at - timeframe
    {
      var i :| 0 <= i < |earlier| && earlier[i] == x;
      assert joins[..k][i] == joins[i];
    }
  }

  /**
   * With threshold T and a clean window, a burst's first T joins are admitted and every later
   * one is banned: the ban hits the (T+1)-th join, not the T-th.
   */
  lemma BurstBansAfterThreshold(s: SettingsRow, raids: seq<RaidRow>, guildId: Id, joins: seq<Join>, k: nat)
    requires Burst(joins, s.antiRaidTimeframe) && k < |joins|
    requires GetRecentRaidActions(raids, guildId, s.antiRaidTimeframe, joins[0].at) == []
    ensures RaidTriggered(s, raids + JoinRows(guildId, joins[..k]), guildId, joins[k].at) <==> k >= s.antiRaidThreshold
  {
    WindowCountsEarlierJoins(raids, guildId, s.antiRaidTimeframe, joins, k);
  }

  /** The raid table grows by the same row whether or not the join is banned. */
  lemma JoinAppendsOnePrefixRow(guildId: Id, joins: seq<Join>, k: nat)
    requires k < |joins|
    ensures JoinRows(guildId, joins[..k + 1]) ==
      JoinRows(guildId, joins[..k]) + [RaidRow(guildId, joins[k].memberId, "JOIN", joins[k].at, None)]
  {
    assert joins[..k + 1][..k] == joins[..k];
  }
}
