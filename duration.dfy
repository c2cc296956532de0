/**
 * The duration parser shared by `/giveaway start` and `/mute`: a global scan for
 * `(\d+)([smhd])` summing value times unit, and the 1-minute to 28-day window both commands accept.
 */
module Duration {
  import opened Common
  import opened Text

  predicate IsUnit(c: char) {
    c == 's' || c == 'm' || c == 'h' || c == 'd'
  }

  /** Milliseconds per unit letter. */
  function UnitMs(c: char): (ms: nat)
    requires IsUnit(c)
    ensures c == 's' ==> ms == 1000
    ensures c == 'm' ==> ms == 60 * 1000
    ensures c == 'h' ==> ms == 60 * 60 * 1000
    ensures c == 'd' ==> ms == 24 * 60 * 60 * 1000
  {
    match c
    case 's' => 1000
    case 'm' => 60000
    case 'h' => 3600000
    case 'd' => 86400000
  }

  /** The end of the maximal run of digits starting at `i`. */
  function RunEnd(s: string, i: nat): (k: nat)
    requires i <= |s|
    ensures i <= k <= |s|
    ensures k < |s| ==> !IsDigit(s[k])
    decreases |s| - i
  {
    if i < |s| && IsDigit(s[i]) then RunEnd(s, i + 1) else i
  }

  /** The run is all digits. */
  lemma {:induction false} RunEndDigits(s: string, i: nat)
    requires i <= |s|
    ensures AllDigits(s[i..RunEnd(s, i)])
    decreases |s| - i
  {
    if i < |s| && IsDigit(s[i]) {
      var k := RunEnd(s, i);
      RunEndDigits(s, i + 1);
      assert forall j :: 1 <= j < k - i ==> s[i..k][j] == s[i + 1..k][j - 1];
    }
  }

  /** A match of the pattern: the digits are `s[start..unit]` and `s[unit]` is the unit letter. */
  datatype Match = Match(start: nat, unit: nat)

  predicate MatchesAt(s: string, i: nat) {
    i < |s| && IsDigit(s[i]) && RunEnd(s, i) < |s| && IsUnit(s[RunEnd(s, i)])
  }

  /**
   * `regex.exec(s)` with `lastIndex = from`: the leftmost start at or after `from` where a digit
   * run is directly followed by a unit letter (greedy `\d+` cannot back off onto a digit).
   */
  function Exec(s: string, from: nat): (m: Option<Match>)
    requires from <= |s|
    ensures m.Some? ==> from <= m.value.start < m.value.unit < |s| && m.value.unit == RunEnd(s, m.value.start)
    ensures m.Some? ==> IsUnit(s[m.value.unit])
    decreases |s| - from
  {
    if from == |s| then None
    else if MatchesAt(s, from) then Some(Match(from, RunEnd(s, from)))
    else Exec(s, from + 1)
  }

  /** The value one match contributes: its digits read as a number, in its unit. */
  function MatchMs(s: string, m: Match): nat
    requires m.start < m.unit < |s| && IsUnit(s[m.unit])
  {
    Component(RunValue(s, m.start, m.unit), s[m.unit])
  }

  /** The decimal value of the digits `s[i..k]`, read in place; a non-digit counts as 0. */
  function RunValue(s: string, i: nat, k: nat): nat
    requires i <= k <= |s|
    decreases k - i
  {
    if k == i then 0 else 10 * RunValue(s, i, k - 1) + (if IsDigit(s[k - 1]) then DigitValue(s[k - 1]) else 0)
  }

  /** A count in a unit, in milliseconds. */
  function Component(n: nat, unit: char): nat
    requires IsUnit(unit)
  {
    match unit
    case 's' => n * 1000
    case 'm' => n * 60000
    case 'h' => n * 3600000
    case 'd' => n * 86400000
  }

  lemma ComponentIsProduct(n: nat, unit: char)
    requires IsUnit(unit)
    ensures Component(n, unit) == n * UnitMs(unit)
  {
  }

  /** On a run of digits, reading in place is `parseInt` of the slice. */
  lemma {:induction false} RunValueParses(s: string, i: nat, k: nat)
    requires i <= k <= |s| && AllDigits(s[i..k])
    ensures RunValue(s, i, k) == ParseNat(s[i..k])
    decreases k - i
  {
    if k > i {
      var d := s[i..k];
      assert d[..|d| - 1] == s[i..k - 1];
      assert d[|d| - 1] == s[k - 1];
      assert AllDigits(s[i..k - 1]) by {
        assert forall j :: 0 <= j < k - 1 - i ==> s[i..k - 1][j] == d[j];
      }
      RunValueParses(s, i, k - 1);
    }
  }

  /** The total of all matches from `from` onwards: the specification of the parser's loop. */
  function Scan(s: string, from: nat): nat
    requires from <= |s|
    decreases |s| - from
  {
    match Exec(s, from)
    case None => 0
    case Some(m) => MatchMs(s, m) + Scan(s, m.unit + 1)
  }

  /** `parseDuration`: loops over `regex.exec` until it returns null, accumulating `totalMs`. */
  method ParseDuration(duration: string) returns (totalMs: nat)
    ensures totalMs == Scan(duration, 0)
  {
    totalMs := 0;
    var lastIndex := 0;
    var m := Exec(duration, lastIndex);
    while m.Some?
      invariant lastIndex <= |duration|
      invariant m == Exec(duration, lastIndex)
      invariant totalMs + Scan(duration, lastIndex) == Scan(duration, 0)
      decreases |duration| - lastIndex
    {
      RunEndDigits(duration, m.value.start);
      var value := ParseNat(duration[m.value.start..m.value.unit]);
      var unit := duration[m.value.unit];
      ghost var before := totalMs;
      if unit == 's' {
        totalMs := totalMs + value * 1000;
      } else if unit == 'm' {
        totalMs := totalMs + value * 60 * 1000;
      } else if unit == 'h' {
        totalMs := totalMs + value * 60 * 60 * 1000;
      } else {
        totalMs := totalMs + value * 24 * 60 * 60 * 1000;
      }
      RunValueParses(duration, m.value.start, m.value.unit);
      assert totalMs == before + MatchMs(duration, m.value);
      ScanStep(duration, lastIndex);
      lastIndex := m.value.unit + 1;
      m := Exec(duration, lastIndex);
    }
  }

  /** The window `/giveaway start` and `/mute` accept: 1 minute to 28 days, both ends included. */
  predicate InWindow(ms: int) {
    !(ms == 0 || ms < 60000 || ms > 2419200000)
  }

  lemma InWindowBounds(ms: int)
    ensures InWindow(ms) <==> 60 * 1000 <= ms <= 28 * 24 * 60 * 60 * 1000
  {
  }

  // ------------------------------------------------------------------ properties

  /** Without any unit letter nothing matches, so the total is 0. */
  lemma {:induction false} NoUnitIsZero(s: string, from: nat)
    requires from <= |s|
    requires forall j :: 0 <= j < |s| ==> !IsUnit(s[j])
    ensures Scan(s, from) == 0
  {
    assert Exec(s, from).None?;
  }

  /** Looking only at indices from `|p| + j` onwards, a prefix is invisible. */
  lemma {:induction false} RunEndShift(p: string, b: string, j: nat)
    requires j <= |b|
    ensures RunEnd(p + b, |p| + j) == |p| + RunEnd(b, j)
    decreases |b| - j
  {
    if j < |b| && IsDigit(b[j]) {
      assert (p + b)[|p| + j] == b[j];
      RunEndShift(p, b, j + 1);
    } else if j < |b| {
      assert (p + b)[|p| + j] == b[j];
    }
  }

  /** A match moved `offset` positions to the right. */
  function ShiftMatch(m: Option<Match>, offset: nat): Option<Match> {
    if m.None? then None else Some(Match(m.value.start + offset, m.value.unit + offset))
  }

  lemma MatchesAtShift(p: string, b: string, j: nat)
    requires j < |b|
    ensures MatchesAt(p + b, |p| + j) <==> MatchesAt(b, j)
    ensures RunEnd(p + b, |p| + j) == |p| + RunEnd(b, j)
  {
    var s := p + b;
    RunEndShift(p, b, j);
    assert s[|p| + j] == b[j];
    if RunEnd(b, j) < |b| {
      assert s[|p| + RunEnd(b, j)] == b[RunEnd(b, j)];
    }
  }

  /** Searching past a prefix finds the same match as searching without it, moved by its length. */
  lemma {:induction false} ExecShift(p: string, b: string, j: nat)
    requires j <= |b|
    ensures Exec(p + b, |p| + j) == ShiftMatch(Exec(b, j), |p|)
    decreases |b| - j
  {
    if j < |b| {
      MatchesAtShift(p, b, j);
      if !MatchesAt(b, j) {
        ExecShift(p, b, j + 1);
      }
    }
  }

  /** Digits read in place past a prefix read the same. */
  lemma {:induction false} RunValueShift(p: string, b: string, i: nat, k: nat)
    requires i <= k <= |b|
    ensures RunValue(p + b, |p| + i, |p| + k) == RunValue(b, i, k)
    decreases k - i
  {
    if k > i {
      assert (p + b)[|p| + k - 1] == b[k - 1];
      RunValueShift(p, b, i, k - 1);
    }
  }

  /** Digits read in place inside `a` read the same with `b` appended. */
  lemma {:induction false} RunValuePrefix(a: string, b: string, i: nat, k: nat)
    requires i <= k <= |a|
    ensures RunValue(a + b, i, k) == RunValue(a, i, k)
    decreases k - i
  {
    if k > i {
      assert (a + b)[k - 1] == a[k - 1];
      RunValuePrefix(a, b, i, k - 1);
    }
  }

  /** A match of `b` has the same value past a prefix. */
  lemma MatchMsShift(p: string, b: string, m: Match)
    requires m.start < m.unit < |b| && IsUnit(b[m.unit])
    ensures IsUnit((p + b)[|p| + m.unit])
    ensures MatchMs(p + b, Match(|p| + m.start, |p| + m.unit)) == MatchMs(b, m)
  {
    assert (p + b)[|p| + m.unit] == b[m.unit];
    RunValueShift(p, b, m.start, m.unit);
  }

  /** Past a prefix, the scan of `b` adds up the same. */
  lemma {:induction false} ScanShift(p: string, b: string, j: nat)
    requires j <= |b|
    ensures Scan(p + b, |p| + j) == Scan(b, j)
    decreases |b| - j
  {
    var m := Exec(b, j);
    if m.Some? {
      ScanShift(p, b, m.value.unit + 1);
      ShiftHitStep(p, b, j);
    } else {
      ExecShift(p, b, j);
    }
  }

  /** A match of `b` counts alike past the prefix, and both scans go on after it. */
  lemma ShiftHitStep(p: string, b: string, j: nat)
    requires j <= |b| && Exec(b, j).Some?
    requires Scan(p + b, |p| + (Exec(b, j).value.unit + 1)) == Scan(b, Exec(b, j).value.unit + 1)
    ensures Scan(p + b, |p| + j) == Scan(b, j)
  {
    var m := Exec(b, j).value;
    ExecShift(p, b, j);
    assert Exec(p + b, |p| + j) == Some(Match(|p| + m.start, |p| + m.unit));
    MatchMsShift(p, b, m);
    ScanStep(p + b, |p| + j);
    ScanStep(b, j);
  }

  /** A run in a string that does not end in a digit stops before the end. */
  lemma {:induction false} RunEndBeforeLast(a: string, i: nat)
    requires i < |a| && !IsDigit(a[|a| - 1])
    ensures RunEnd(a, i) < |a|
    decreases |a| - i
  {
    if IsDigit(a[i]) {
      RunEndBeforeLast(a, i + 1);
    }
  }

  lemma MatchesAtPrefix(a: string, b: string, i: nat)
    requires i < |a| && !IsDigit(a[|a| - 1])
    ensures MatchesAt(a + b, i) <==> MatchesAt(a, i)
    ensures MatchesAt(a, i) ==> RunEnd(a + b, i) == RunEnd(a, i)
  {
    var s := a + b;
    assert s[i] == a[i];
    if IsDigit(a[i]) {
      RunEndBeforeLast(a, i);
      RunEndPrefix(a, b, i);
      assert s[RunEnd(a, i)] == a[RunEnd(a, i)];
    }
  }

  /**
   * Inside `a`, which does not end in a digit, appending `b` changes no match: the search finds
   * the same match, or, when `a` has none left, whatever the search from the end of `a` finds.
   */
  lemma {:induction false} ExecPrefix(a: string, b: string, i: nat)
    requires i <= |a|
    requires a == [] || !IsDigit(a[|a| - 1])
    ensures Exec(a + b, i) == if Exec(a, i).Some? then Exec(a, i) else Exec(a + b, |a|)
    decreases |a| - i
  {
    if i < |a| {
      MatchesAtPrefix(a, b, i);
      if !MatchesAt(a, i) {
        ExecPrefix(a, b, i + 1);
      }
    }
  }

  /** A match inside `a` has the same value with `b` appended. */
  lemma MatchMsPrefix(a: string, b: string, m: Match)
    requires m.start < m.unit < |a| && IsUnit(a[m.unit])
    ensures IsUnit((a + b)[m.unit])
    ensures MatchMs(a + b, m) == MatchMs(a, m)
  {
    assert (a + b)[m.unit] == a[m.unit];
    RunValuePrefix(a, b, m.start, m.unit);
  }

  /** Inside `a`, which does not end in a digit, the scan of `a + b` is that of `a`, then that of `b`. */
  lemma {:induction false} ScanPrefix(a: string, b: string, i: nat)
    requires i <= |a|
    requires a == [] || !IsDigit(a[|a| - 1])
    ensures Scan(a + b, i) == Scan(a, i) + Scan(b, 0)
    decreases |a| - i
  {
    var m := Exec(a, i);
    if m.Some? {
      ScanPrefix(a, b, m.value.unit + 1);
      PrefixHitStep(a, b, i);
    } else {
      PrefixMissStep(a, b, i);
    }
  }

  /** A match inside `a` counts alike in `a` and in `a + b`, and both scans go on past it. */
  lemma PrefixHitStep(a: string, b: string, i: nat)
    requires i <= |a|
    requires a == [] || !IsDigit(a[|a| - 1])
    requires Exec(a, i).Some?
    requires Scan(a + b, Exec(a, i).value.unit + 1) == Scan(a, Exec(a, i).value.unit + 1) + Scan(b, 0)
    ensures Scan(a + b, i) == Scan(a, i) + Scan(b, 0)
  {
    var m := Exec(a, i).value;
    ExecPrefix(a, b, i);
    assert Exec(a + b, i) == Some(m);
    MatchMsPrefix(a, b, m);
    ScanStep(a + b, i);
    ScanStep(a, i);
  }

  /** With no match left in `a`, the scan of `a + b` is that of `b`. */
  lemma PrefixMissStep(a: string, b: string, i: nat)
    requires i <= |a|
    requires a == [] || !IsDigit(a[|a| - 1])
    requires Exec(a, i).None?
    ensures Scan(a + b, i) == Scan(a, i) + Scan(b, 0)
  {
    ExecPrefix(a, b, i);
    ScanShift(a, b, 0);
    ScanFromSameSearch(a + b, i, |a|);
  }

  /** One step of the scan: a match found from `from` counts, and the scan goes on after its unit. */
  lemma ScanStep(s: string, from: nat)
    requires from <= |s| && Exec(s, from).Some?
    ensures Scan(s, from) == MatchMs(s, Exec(s, from).value) + Scan(s, Exec(s, from).value.unit + 1)
  {
  }

  /** Two positions from which the search finds the same match scan to the same total. */
  lemma ScanFromSameSearch(s: string, i: nat, j: nat)
    requires i <= |s| && j <= |s| && Exec(s, i) == Exec(s, j)
    ensures Scan(s, i) == Scan(s, j)
  {
  }

  lemma {:induction false} RunEndPrefix(a: string, b: string, i: nat)
    requires i <= |a| && RunEnd(a, i) < |a|
    ensures RunEnd(a + b, i) == RunEnd(a, i)
    decreases |a| - i
  {
    if IsDigit(a[i]) {
      assert (a + b)[i] == a[i];
      RunEndPrefix(a, b, i + 1);
    } else {
      assert (a + b)[i] == a[i];
    }
  }

  /** The parser sums over the pieces: a string not ending in a digit can be followed by anything. */
  lemma ScanConcat(a: string, b: string)
    requires a == [] || !IsDigit(a[|a| - 1])
    ensures Scan(a + b, 0) == Scan(a, 0) + Scan(b, 0)
  {
    ScanPrefix(a, b, 0);
  }

  /** One component such as `"90m"`: its value times its unit. */
  lemma OneComponent(n: nat, u: char)
    requires IsUnit(u)
    ensures Scan(NatStr(n) + [u], 0) == n * UnitMs(u)
  {
    var s := NatStr(n) + [u];
    var digits := NatStr(n);
    AllDigitsRun(s, |digits|);
    assert s[|digits|] == u;
    assert MatchesAt(s, 0);
    assert s[0..|digits|] == digits;
    RunValueParses(s, 0, |digits|);
    ParseNatStr(n);
    ComponentIsProduct(n, u);
    assert Exec(s, |digits| + 1) == None;
  }

  lemma AllDigitsRun(s: string, k: nat)
    requires k < |s| && !IsDigit(s[k]) && forall j :: 0 <= j < k ==> IsDigit(s[j])
    ensures RunEnd(s, 0) == k
  {
    RunEndFrom(s, 0, k);
  }

  lemma {:induction false} RunEndFrom(s: string, i: nat, k: nat)
    requires i <= k < |s| && !IsDigit(s[k]) && forall j :: i <= j < k ==> IsDigit(s[j])
    ensures RunEnd(s, i) == k
    decreases k - i
  {
    if i < k {
      RunEndFrom(s, i + 1, k);
    }
  }

  /** A rendered list of components, e.g. `[(2, 'h'), (30, 'm')]` is `"2h30m"`. */
  function Render(parts: seq<(nat, char)>): string
    requires forall k :: 0 <= k < |parts| ==> IsUnit(parts[k].1)
  {
    if parts == [] then "" else NatStr(parts[0].0) + [parts[0].1] + Render(parts[1..])
  }

  function Total(parts: seq<(nat, char)>): nat
    requires forall k :: 0 <= k < |parts| ==> IsUnit(parts[k].1)
  {
    if parts == [] then 0 else parts[0].0 * UnitMs(parts[0].1) + Total(parts[1..])
  }

  /** Parsing a rendered list gives back the sum of its components. */
  lemma {:induction false} RenderRoundTrip(parts: seq<(nat, char)>)
    requires forall k :: 0 <= k < |parts| ==> IsUnit(parts[k].1)
    ensures Scan(Render(parts), 0) == Total(parts)
  {
    if parts == [] {
      assert Exec("", 0).None?;
    } else {
      var head := NatStr(parts[0].0) + [parts[0].1];
      OneComponent(parts[0].0, parts[0].1);
      RenderRoundTrip(parts[1..]);
      ScanConcat(head, Render(parts[1..]));
    }
  }
}
