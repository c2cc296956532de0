/**
 * The uptime line of `/ping`: the client's uptime in milliseconds broken into days, hours,
 * minutes and seconds, and written from the largest nonzero unit among days, hours and
 * minutes down to seconds, as in `1d 2h 3m 4s`, `5m 0s` or `0s`. Sub-second time is dropped.
 */
module Uptime {
  import opened Common
  import opened Text

  /**
   * Days, hours below a day, minutes below an hour and seconds below a minute of an uptime in
   * milliseconds; together they fall short of the uptime by less than a second.
   */
  function UptimeParts(uptime: nat): (p: (nat, nat, nat, nat))
    ensures p.1 < 24 && p.2 < 60 && p.3 < 60
    ensures p.0 * 86400000 + p.1 * 3600000 + p.2 * 60000 + p.3 * 1000 <= uptime
    ensures uptime < p.0 * 86400000 + p.1 * 3600000 + p.2 * 60000 + p.3 * 1000 + 1000
  {
    NestedRemainders(uptime);
    (uptime / 86400000, (uptime % 86400000) / 3600000, (uptime % 3600000) / 60000, (uptime % 60000) / 1000)
  }

  /** The remainder by an hour (a minute) is that of the remainder by a day (an hour). */
  lemma NestedRemainders(uptime: nat)
    ensures uptime % 3600000 == (uptime % 86400000) % 3600000
    ensures uptime % 60000 == (uptime % 3600000) % 60000
  {
    var d := uptime / 86400000;
    var r := uptime % 86400000;
    assert uptime == (24 * d) * 3600000 + r;
    var h := uptime / 3600000;
    var t := uptime % 3600000;
    assert uptime == (60 * h) * 60000 + t;
  }

  /** The seconds a unit letter stands for, zero for a letter that is no unit. */
  function Weight(unit: char): nat {
    match unit
    case 'd' => 86400
    case 'h' => 3600
    case 'm' => 60
    case 's' => 1
    case _ => 0
  }

  /** A count followed by its unit letter, as in `12h`. */
  function Field(n: nat, unit: char): string {
    NatStr(n) + [unit]
  }

  /** The fields of a list of counts with their units. */
  function Fields(counts: seq<(nat, char)>): (fields: seq<string>)
    ensures |fields| == |counts|
    ensures forall i :: 0 <= i < |counts| ==> fields[i] == Field(counts[i].0, counts[i].1)
  {
    seq(|counts|, i requires 0 <= i < |counts| => Field(counts[i].0, counts[i].1))
  }

  /** The seconds a list of counts with their units adds up to. */
  function Total(counts: seq<(nat, char)>): nat
    decreases |counts|
  {
    if counts == [] then 0 else counts[0].0 * Weight(counts[0].1) + Total(counts[1..])
  }

  /** Days, hours, minutes and seconds of an uptime, from the largest nonzero of the first three. */
  function UptimeCounts(uptime: nat): seq<(nat, char)> {
    var p := UptimeParts(uptime);
    var all := [(p.0, 'd'), (p.1, 'h'), (p.2, 'm'), (p.3, 's')];
    if p.0 > 0 then all else if p.1 > 0 then all[1..] else if p.2 > 0 then all[2..] else all[3..]
  }

  /** The uptime text: its fields separated by single spaces. */
  function FormatUptime(uptime: nat): string {
    Join(Fields(UptimeCounts(uptime)), " ")
  }

  // ---------------------------------------------------------------- reading the text back

  /** The seconds one space-separated field stands for: digits followed by a unit letter. */
  function FieldSeconds(f: string): Option<nat> {
    if |f| >= 2 && AllDigits(f[..|f| - 1]) && Weight(f[|f| - 1]) > 0 then
      Some(ParseNat(f[..|f| - 1]) * Weight(f[|f| - 1]))
    else None
  }

  /** The total of a list of fields, when every one of them reads. */
  function FieldsSeconds(fields: seq<string>): Option<nat>
    decreases |fields|
  {
    if fields == [] then Some(0)
    else
      match (FieldSeconds(fields[0]), FieldsSeconds(fields[1..]))
      case (Some(a), Some(b)) => Some(a + b)
      case _ => None
  }

  /** Reads an uptime text back as whole seconds. */
  function UptimeSeconds(text: string): Option<nat> {
    FieldsSeconds(Split(text, ' '))
  }

  /** A field holds no space and reads back as its count in its unit. */
  lemma FieldReadsBack(n: nat, unit: char)
    requires Weight(unit) > 0
    ensures ' ' !in Field(n, unit)
    ensures FieldSeconds(Field(n, unit)) == Some(n * Weight(unit))
  {
    var f := Field(n, unit);
    assert f[..|f| - 1] == NatStr(n);
    DigitsHaveNo(NatStr(n), ' ');
    ParseNatStr(n);
  }

  /** Fields of counts in proper units read back, one by one, as the total of the counts. */
  lemma {:induction false} FieldsReadBack(counts: seq<(nat, char)>)
    requires forall i :: 0 <= i < |counts| ==> Weight(counts[i].1) > 0
    ensures FieldsSeconds(Fields(counts)) == Some(Total(counts))
    decreases |counts|
  {
    if counts != [] {
      FieldReadsBack(counts[0].0, counts[0].1);
      assert Fields(counts)[1..] == Fields(counts[1..]);
      FieldsReadBack(counts[1..]);
    }
  }

  /** The uptime's fields, joined and split on the space again, come back unchanged. */
  lemma UptimeFieldsSplit(uptime: nat)
    ensures Split(FormatUptime(uptime), ' ') == Fields(UptimeCounts(uptime))
  {
    var counts := UptimeCounts(uptime);
    var fields := Fields(counts);
    forall i | 0 <= i < |fields| ensures ' ' !in fields[i] {
      FieldReadsBack(counts[i].0, counts[i].1);
    }
    SplitJoin(fields, ' ');
  }

  /** Leaving out leading zero counts leaves the total as it is, the whole seconds of the uptime. */
  lemma UptimeTotal(uptime: nat)
    ensures Total(UptimeCounts(uptime)) == uptime / 1000
  {
    var p := UptimeParts(uptime);
    var all := [(p.0, 'd'), (p.1, 'h'), (p.2, 'm'), (p.3, 's')];
    assert all[1..][1..][1..] == all[3..] && all[1..][1..] == all[2..];
    assert Total(all[3..]) == p.3;
    assert Total(all[2..]) == p.2 * 60 + p.3;
    assert Total(all[1..]) == p.1 * 3600 + p.2 * 60 + p.3;
    assert Total(all) == p.0 * 86400 + p.1 * 3600 + p.2 * 60 + p.3;
  }

  /**
   * The uptime text reads back as the uptime in whole seconds, so only sub-second time is
   * dropped; its first field is in the largest nonzero unit among days, hours and minutes, or
   * in seconds when all three are zero, and it always ends in the seconds.
   */
  lemma FormatUptimeReadsBack(uptime: nat)
    ensures UptimeSeconds(FormatUptime(uptime)) == Some(uptime / 1000)
    ensures var p := UptimeParts(uptime);
      var fields := Split(FormatUptime(uptime), ' ');
      |fields| == (if p.0 > 0 then 4 else if p.1 > 0 then 3 else if p.2 > 0 then 2 else 1) &&
      fields[0] == (if p.0 > 0 then Field(p.0, 'd') else if p.1 > 0 then Field(p.1, 'h')
        else if p.2 > 0 then Field(p.2, 'm') else Field(p.3, 's')) &&
      fields[|fields| - 1] == Field(p.3, 's')
  {
    var counts := UptimeCounts(uptime);
    UptimeFieldsSplit(uptime);
    FieldsReadBack(counts);
    UptimeTotal(uptime);
  }

  /** Under a second of uptime shows as `0s`. */
  lemma SubSecondIsZero(uptime: nat)
    requires uptime < 1000
    ensures FormatUptime(uptime) == "0s"
  {
    assert UptimeCounts(uptime) == [(0, 's')];
    assert NatStr(0) == "0";
    assert Field(0, 's') == "0s";
    assert Fields([(0, 's')])[0] == "0s";
  }
}
