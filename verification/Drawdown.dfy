/** cpat/analytics/drawdown.py: the one-pass drawdown table against the running-peak definition. */
module Drawdown {
  import opened Models

  /** One drawdown episode; bars are given by index instead of date. */
  datatype Period = Period(
    peak: nat, trough: nat, recovery: Option<nat>, depth: real,
    underwater: int, recoveryBars: int, duration: int)

  // ---- The defining notions ------------------------------------------------------------------

  function RunningPeak(curve: seq<real>, i: nat): real
    requires i < |curve|
  {
    if i == 0 then curve[0] else MaxR(RunningPeak(curve, i - 1), curve[i])
  }

  /** The drawdown series at bar `i`. */
  function SeriesAt(curve: seq<real>, i: nat): real
    requires i < |curve|
  {
    var peak := RunningPeak(curve, i);
    if peak == 0.0 then 0.0 else (curve[i] - peak) / peak
  }

  predicate BelowPeak(curve: seq<real>, i: nat)
    requires i < |curve|
  {
    curve[i] < RunningPeak(curve, i)
  }

  predicate Positive(curve: seq<real>) {
    forall i :: 0 <= i < |curve| ==> curve[i] > 0.0
  }

  /** The first bar after the episode. */
  function EndOf(p: Period, n: nat): nat {
    if p.recovery.Some? then p.recovery.value else n
  }

  /** Bar `j` lies in episode `p`. */
  predicate Inside(p: Period, n: nat, j: nat) {
    p.peak < j < EndOf(p, n)
  }

  /** An episode starts at an all-time high, stays at or below it, ends at the first bar that is back at
      or above it after the dip (or with the data), and bottoms out at its trough. Bars before the dip
      may still equal the high: the scan dates the start from the first bar of a flat top. */
  ghost predicate Episode(curve: seq<real>, n: nat, p: Period)
    requires n <= |curve|
  {
    && Inside(p, n, p.trough)
    && EndOf(p, n) <= n
    && curve[p.peak] == RunningPeak(curve, p.peak)
    && curve[p.trough] < curve[p.peak]
    && (forall j: nat :: Inside(p, n, j) ==> curve[p.trough] <= curve[j] <= curve[p.peak])
    && (forall j: nat :: p.trough <= j < EndOf(p, n) ==> curve[j] < curve[p.peak])
    && (p.recovery.Some? ==> p.recovery.value < n && curve[p.recovery.value] >= curve[p.peak])
    && p.depth == DepthOf(curve[p.trough], curve[p.peak])
    && p.underwater == p.trough - p.peak
    && p.recoveryBars == (if p.recovery.Some? then p.recovery.value - p.trough else 0)
    && p.duration == (if p.recovery.Some? then p.recovery.value else n - 1) - p.peak
  }

  function DepthOf(trough: real, peak: real): real {
    if peak == 0.0 then 0.0 else (trough - peak) / peak
  }

  // ---- The scan ------------------------------------------------------------------------------

  datatype Scan = Scan(peak: nat, peakValue: real, open: bool, trough: nat, troughValue: real, periods: seq<Period>)

  function Step(s: Scan, i: nat, value: real): Scan {
    if s.open then
      var t := if value < s.troughValue then s.(trough := i, troughValue := value) else s;
      if value >= t.peakValue then
        var underwater, recovery := t.trough - t.peak, i - t.trough;
        var p := Period(t.peak, t.trough, Some(i), DepthOf(t.troughValue, t.peakValue),
                        underwater, recovery, underwater + recovery);
        Scan(i, value, false, i, value, t.periods + [p])
      else t
    else if value < s.peakValue then s.(open := true, trough := i, troughValue := value)
    else if value > s.peakValue then s.(peak := i, peakValue := value)
    else s
  }

  function Scanned(curve: seq<real>, n: nat): Scan
    requires 1 <= n <= |curve|
  {
    if n == 1 then Scan(0, curve[0], false, 0, curve[0], [])
    else Step(Scanned(curve, n - 1), n - 1, curve[n - 1])
  }

  function Closed(s: Scan, n: nat): seq<Period> {
    if s.open then
      s.periods + [Period(s.peak, s.trough, None, DepthOf(s.troughValue, s.peakValue),
                          s.trough - s.peak, 0, n - 1 - s.peak)]
    else s.periods
  }

  /** The stable sort by depth, worst first. */
  function Insert(p: Period, sorted: seq<Period>): seq<Period> {
    if sorted == [] || p.depth < sorted[0].depth then [p] + sorted
    else [sorted[0]] + Insert(p, sorted[1..])
  }

  function SortByDepth(ps: seq<Period>): seq<Period> {
    if ps == [] then [] else Insert(ps[|ps| - 1], SortByDepth(ps[..|ps| - 1]))
  }

  method ComputeDrawdownTable(curve: seq<real>) returns (table: seq<Period>)
    ensures |curve| < 2 ==> table == []
    ensures |curve| >= 2 ==> table == SortByDepth(Closed(Scanned(curve, |curve|), |curve|))
  {
    if |curve| < 2 {
      return [];
    }
    var peak, peakValue, open, trough, troughValue := 0, curve[0], false, 0, curve[0];
    var periods: seq<Period> := [];
    for i := 1 to |curve|
      invariant Scan(peak, peakValue, open, trough, troughValue, periods) == Scanned(curve, i)
    {
      var value := curve[i];
      if open {
        if value < troughValue {
          trough, troughValue := i, value;
        }
        if value >= peakValue {
          var underwater, recovery := trough - peak, i - trough;
          periods := periods + [Period(peak, trough, Some(i), DepthOf(troughValue, peakValue),
                                       underwater, recovery, underwater + recovery)];
          peak, peakValue, open, trough, troughValue := i, value, false, i, value;
        }
      } else if value < peakValue {
        open, trough, troughValue := true, i, value;
      } else if value > peakValue {
        peak, peakValue := i, value;
      }
    }
    if open {
      periods := periods + [Period(peak, trough, None, DepthOf(troughValue, peakValue),
                                   trough - peak, 0, |curve| - 1 - peak)];
    }
    table := SortByDepth(periods);
  }

  // ---- What the scan keeps -------------------------------------------------------------------

  /** Episodes in time order, each over before the next one starts. */
  predicate Ordered(ps: seq<Period>, n: nat) {
    forall a, b :: 0 <= a < b < |ps| ==> ps[a].recovery.Some? && EndOf(ps[a], n) <= ps[b].peak
  }

  /** The open stretch, if any, as an unfinished episode. */
  predicate ScanOk(curve: seq<real>, n: nat, s: Scan)
    requires 1 <= n <= |curve|
  {
    && s.peak < n && curve[s.peak] == s.peakValue == RunningPeak(curve, n - 1) == RunningPeak(curve, s.peak)
    && (s.open ==> s.peak < s.trough < n && curve[s.trough] == s.troughValue
                   && s.troughValue < s.peakValue
                   && (forall j :: s.peak < j < n ==> s.troughValue <= curve[j] <= s.peakValue)
                   && forall j :: s.trough <= j < n ==> curve[j] < s.peakValue)
    && (!s.open ==> forall j :: s.peak <= j < n ==> curve[j] == s.peakValue)
  }

  ghost predicate RecoveredEpisode(curve: seq<real>, n: nat, limit: nat, p: Period)
    requires n <= |curve|
  {
    p.recovery.Some? && p.recovery.value <= limit && Episode(curve, n, p)
  }

  ghost predicate PeriodsOk(curve: seq<real>, n: nat, s: Scan)
    requires n <= |curve|
  {
    && (forall k :: 0 <= k < |s.periods| ==> RecoveredEpisode(curve, n, s.peak, s.periods[k]))
    && Ordered(s.periods, n)
  }

  /** Some listed episode contains bar `j`. */
  predicate Listed(ps: seq<Period>, n: nat, j: nat) {
    exists k :: 0 <= k < |ps| && Inside(ps[k], n, j)
  }

  predicate Covered(curve: seq<real>, n: nat, s: Scan)
    requires n <= |curve|
  {
    forall j :: 0 <= j < n && BelowPeak(curve, j) ==> Listed(s.periods, n, j) || (s.open && s.peak < j)
  }

  lemma {:induction false} ScanIsSound(curve: seq<real>, n: nat)
    requires 1 <= n <= |curve|
    ensures ScanOk(curve, n, Scanned(curve, n))
    ensures PeriodsOk(curve, n, Scanned(curve, n))
    ensures Covered(curve, n, Scanned(curve, n))
  {
    if n > 1 {
      ScanIsSound(curve, n - 1);
      var s := Scanned(curve, n - 1);
      StepKeepsPeak(curve, n, s);
      StepKeepsPeriods(curve, n, s);
      StepKeepsCover(curve, n, s);
    }
  }

  lemma StepKeepsPeak(curve: seq<real>, n: nat, s: Scan)
    requires 2 <= n <= |curve| && ScanOk(curve, n - 1, s)
    ensures ScanOk(curve, n, Step(s, n - 1, curve[n - 1]))
  {
  }

  lemma StepKeepsPeriods(curve: seq<real>, n: nat, s: Scan)
    requires 2 <= n <= |curve| && ScanOk(curve, n - 1, s) && PeriodsOk(curve, n - 1, s)
    ensures PeriodsOk(curve, n, Step(s, n - 1, curve[n - 1]))
  {
    var t := Step(s, n - 1, curve[n - 1]);
    if s.open && curve[n - 1] >= s.peakValue {
      StepClosesEpisode(curve, n, s);
      PeriodsExtend(curve, n, s, t);
    } else {
      PeriodsExtend(curve, n, s, t);
    }
  }

  lemma PeriodsExtend(curve: seq<real>, n: nat, s: Scan, t: Scan)
    requires 2 <= n <= |curve| && PeriodsOk(curve, n - 1, s) && s.peak <= t.peak
    requires |s.periods| <= |t.periods| <= |s.periods| + 1 && t.periods[..|s.periods|] == s.periods
    requires |t.periods| > |s.periods| ==>
               var p := t.periods[|s.periods|];
               p.peak == s.peak && p.recovery == Some(t.peak) && Episode(curve, n, p)
    ensures PeriodsOk(curve, n, t)
  {
    forall k | 0 <= k < |t.periods|
      ensures RecoveredEpisode(curve, n, t.peak, t.periods[k])
    {
      if k < |s.periods| {
        assert t.periods[k] == t.periods[..|s.periods|][k];
        RecoveredEpisodeStays(curve, n, s.periods[k]);
      }
    }
    forall a, b | 0 <= a < b < |t.periods|
      ensures EndOf(t.periods[a], n) <= t.periods[b].peak
    {
      assert t.periods[a] == t.periods[..|s.periods|][a];
      assert RecoveredEpisode(curve, n - 1, s.peak, s.periods[a]);
      if b < |s.periods| {
        assert t.periods[b] == t.periods[..|s.periods|][b];
      }
    }
  }

  lemma RecoveredEpisodeStays(curve: seq<real>, n: nat, p: Period)
    requires 1 <= n <= |curve| && p.recovery.Some? && Episode(curve, n - 1, p)
    ensures Episode(curve, n, p)
  {
    assert forall j: nat :: Inside(p, n, j) <==> Inside(p, n - 1, j);
  }

  lemma StepClosesEpisode(curve: seq<real>, n: nat, s: Scan)
    requires 2 <= n <= |curve| && ScanOk(curve, n - 1, s)
    requires s.open && curve[n - 1] >= s.peakValue
    ensures var t := Step(s, n - 1, curve[n - 1]);
            && |t.periods| == |s.periods| + 1 && t.periods[..|s.periods|] == s.periods
            && var p := t.periods[|s.periods|];
               p.peak == s.peak && p.recovery == Some(n - 1) && Episode(curve, n, p)
  {
    var p := Step(s, n - 1, curve[n - 1]).periods[|s.periods|];
    assert p.trough == s.trough;
    assert forall j: nat :: Inside(p, n, j) <==> s.peak < j < n - 1;
  }

  lemma StepKeepsCover(curve: seq<real>, n: nat, s: Scan)
    requires 2 <= n <= |curve| && ScanOk(curve, n - 1, s) && PeriodsOk(curve, n - 1, s) && Covered(curve, n - 1, s)
    ensures Covered(curve, n, Step(s, n - 1, curve[n - 1]))
  {
    var t := Step(s, n - 1, curve[n - 1]);
    forall j | 0 <= j < n && BelowPeak(curve, j)
      ensures Listed(t.periods, n, j) || (t.open && t.peak < j)
    {
      if j < n - 1 {
        if Listed(s.periods, n - 1, j) {
          var k :| 0 <= k < |s.periods| && Inside(s.periods[k], n - 1, j);
          assert t.periods[k] == s.periods[k] && Inside(t.periods[k], n, j);
        } else if !t.open {
          assert Inside(t.periods[|s.periods|], n, j);
        }
      }
    }
  }

  // ---- The sort ------------------------------------------------------------------------------

  predicate SortedByDepth(ps: seq<Period>) {
    forall a, b :: 0 <= a < b < |ps| ==> ps[a].depth <= ps[b].depth
  }

  lemma {:induction false} InsertKeeps(p: Period, ps: seq<Period>)
    requires SortedByDepth(ps)
    ensures SortedByDepth(Insert(p, ps)) && multiset(Insert(p, ps)) == multiset(ps) + multiset{p}
  {
    if ps == [] || p.depth < ps[0].depth {
    } else {
      InsertKeeps(p, ps[1..]);
      assert ps == [ps[0]] + ps[1..];
      FrontStaysFirst(ps[0], p, ps[1..], Insert(p, ps[1..]));
    }
  }

  lemma FrontStaysFirst(first: Period, p: Period, rest: seq<Period>, tail: seq<Period>)
    requires SortedByDepth([first] + rest) && first.depth <= p.depth
    requires SortedByDepth(tail) && multiset(tail) == multiset(rest) + multiset{p}
    ensures SortedByDepth([first] + tail)
  {
    forall q | q in tail ensures first.depth <= q.depth {
      assert q in multiset(tail);
      if q != p {
        assert q in multiset(rest);
        assert q in rest;
        var k :| 0 <= k < |rest| && rest[k] == q;
        assert ([first] + rest)[0] == first && ([first] + rest)[k + 1] == q;
      }
    }
  }

  lemma CountLast(init: seq<Period>, last: Period, ps: seq<Period>)
    requires ps == init + [last]
    ensures multiset(ps) == multiset(init) + multiset{last}
  {
  }

  lemma {:induction false} SortKeeps(ps: seq<Period>)
    ensures SortedByDepth(SortByDepth(ps)) && multiset(SortByDepth(ps)) == multiset(ps)
  {
    if ps != [] {
      var init, last := ps[..|ps| - 1], ps[|ps| - 1];
      SortKeeps(init);
      InsertKeeps(last, SortByDepth(init));
      CountLast(init, last, ps);
    }
  }

  // ---- The table refines the definition ------------------------------------------------------

  function Table(curve: seq<real>): seq<Period> {
    if |curve| < 2 then [] else SortByDepth(Closed(Scanned(curve, |curve|), |curve|))
  }

  /** The episodes in the order in which they occur. */
  function Timeline(curve: seq<real>): seq<Period> {
    if |curve| < 2 then [] else Closed(Scanned(curve, |curve|), |curve|)
  }

  lemma TimelineIsOrdered(curve: seq<real>)
    ensures Ordered(Timeline(curve), |curve|)
    ensures forall k :: 0 <= k < |Timeline(curve)| ==> Episode(curve, |curve|, Timeline(curve)[k])
  {
    var n := |curve|;
    if n >= 2 {
      ScanIsSound(curve, n);
      var s, ps := Scanned(curve, n), Timeline(curve);
      forall k | 0 <= k < |ps| ensures Episode(curve, n, ps[k]) {
        if k < |s.periods| {
          assert RecoveredEpisode(curve, n, s.peak, s.periods[k]);
        } else {
          LastIsEpisode(curve, s);
        }
      }
      ClosingKeepsOrder(curve, s);
    }
  }

  /** An episode still open at the end of the data. */
  lemma LastIsEpisode(curve: seq<real>, s: Scan)
    requires 2 <= |curve| && ScanOk(curve, |curve|, s) && s.open
    ensures Episode(curve, |curve|, Closed(s, |curve|)[|s.periods|])
  {
    var p := Closed(s, |curve|)[|s.periods|];
    assert Inside(p, |curve|, s.trough);
    assert forall j: nat :: Inside(p, |curve|, j) <==> s.peak < j < |curve|;
  }

  lemma ClosingKeepsOrder(curve: seq<real>, s: Scan)
    requires 2 <= |curve| && PeriodsOk(curve, |curve|, s)
    ensures Ordered(Closed(s, |curve|), |curve|)
  {
    var n, ps := |curve|, Closed(s, |curve|);
    forall a, b | 0 <= a < b < |ps| ensures ps[a].recovery.Some? && EndOf(ps[a], n) <= ps[b].peak {
      assert RecoveredEpisode(curve, n, s.peak, s.periods[a]);
    }
  }

  lemma TimelineCovers(curve: seq<real>, j: nat)
    requires j < |curve| && BelowPeak(curve, j)
    ensures Listed(Timeline(curve), |curve|, j)
  {
    var n := |curve|;
    if n >= 2 {
      ScanIsSound(curve, n);
      var s, ps := Scanned(curve, n), Timeline(curve);
      if Listed(s.periods, n, j) {
        var k :| 0 <= k < |s.periods| && Inside(s.periods[k], n, j);
        assert Inside(ps[k], n, j);
      } else {
        assert Inside(ps[|s.periods|], n, j);
      }
    }
  }

  /** The sorted table holds the same entries as the timeline. */
  lemma TableIsTimeline(curve: seq<real>, p: Period)
    ensures p in Table(curve) <==> p in Timeline(curve)
    ensures SortedByDepth(Table(curve)) && |Table(curve)| == |Timeline(curve)|
  {
    SortKeeps(Timeline(curve));
    assert p in Table(curve) <==> p in multiset(Table(curve));
    assert p in Timeline(curve) <==> p in multiset(Timeline(curve));
    assert |multiset(Table(curve))| == |multiset(Timeline(curve))|;
  }

  /** Episodes of equal depth come in time order. */
  predicate TiesInOrder(ps: seq<Period>) {
    forall a, b :: 0 <= a < b < |ps| && ps[a].depth == ps[b].depth ==> ps[a].peak < ps[b].peak
  }

  predicate AllBefore(ps: seq<Period>, p: Period) {
    forall k :: 0 <= k < |ps| ==> ps[k].peak < p.peak
  }

  lemma {:induction false} InsertKeepsTies(p: Period, ps: seq<Period>)
    requires SortedByDepth(ps) && TiesInOrder(ps) && AllBefore(ps, p)
    ensures TiesInOrder(Insert(p, ps))
    ensures forall k :: 0 <= k < |Insert(p, ps)| ==> Insert(p, ps)[k] == p || Insert(p, ps)[k] in ps
  {
    if ps != [] && p.depth >= ps[0].depth {
      var rest := Insert(p, ps[1..]);
      InsertKeepsTies(p, ps[1..]);
      forall b | 0 <= b < |rest| && rest[b].depth == ps[0].depth ensures ps[0].peak < rest[b].peak {
        if rest[b] != p {
          var k :| 0 <= k < |ps[1..]| && ps[1..][k] == rest[b];
          assert ps[k + 1] == rest[b];
        }
      }
    }
  }

  lemma {:induction false} SortKeepsTies(ps: seq<Period>)
    requires forall a, b :: 0 <= a < b < |ps| ==> ps[a].peak < ps[b].peak
    ensures TiesInOrder(SortByDepth(ps))
    ensures forall k :: 0 <= k < |SortByDepth(ps)| ==> SortByDepth(ps)[k] in ps
  {
    if ps != [] {
      var init, last := ps[..|ps| - 1], ps[|ps| - 1];
      assert ps == init + [last];
      SortKeepsTies(init);
      SortKeeps(init);
      forall k | 0 <= k < |SortByDepth(init)| ensures SortByDepth(init)[k].peak < last.peak {
        var i :| 0 <= i < |init| && init[i] == SortByDepth(init)[k];
        assert ps[i] == init[i];
      }
      InsertKeepsTies(last, SortByDepth(init));
    }
  }

  /** The table lists episodes of equal depth in time order. */
  lemma TableKeepsTies(curve: seq<real>)
    ensures TiesInOrder(Table(curve))
  {
    TimelineIsOrdered(curve);
    SortKeepsTies(Timeline(curve));
  }

  /** The running peak over an episode is the value it started from. */
  lemma {:induction false} PeakHolds(curve: seq<real>, p: Period, j: nat)
    requires Episode(curve, |curve|, p) && p.peak <= j < EndOf(p, |curve|)
    ensures RunningPeak(curve, j) == curve[p.peak]
  {
    if j > p.peak {
      assert Inside(p, |curve|, j);
      PeakHolds(curve, p, j - 1);
    }
  }

  /** A bar is below the running peak exactly when it lies in a listed episode below that episode's
      high. The episode is unique: no two entries share a bar. */
  lemma EveryDipInExactlyOneEpisode(curve: seq<real>, j: nat)
    requires j < |curve|
    ensures BelowPeak(curve, j) <==>
              exists p :: p in Table(curve) && Inside(p, |curve|, j) && curve[j] < curve[p.peak]
    ensures forall a, b :: 0 <= a < b < |Timeline(curve)| ==>
              !(Inside(Timeline(curve)[a], |curve|, j) && Inside(Timeline(curve)[b], |curve|, j))
  {
    var ps, n := Timeline(curve), |curve|;
    TimelineIsOrdered(curve);
    if BelowPeak(curve, j) {
      TimelineCovers(curve, j);
      var k :| 0 <= k < |ps| && Inside(ps[k], n, j);
      TableIsTimeline(curve, ps[k]);
      PeakHolds(curve, ps[k], j);
    }
    if p :| p in Table(curve) && Inside(p, n, j) && curve[j] < curve[p.peak] {
      TableIsTimeline(curve, p);
      PeakHolds(curve, p, j);
    }
  }

  lemma DeeperIsLower(a: real, b: real, peak: real)
    requires peak > 0.0
    ensures a <= b ==> DepthOf(a, peak) <= DepthOf(b, peak)
    ensures a < peak ==> DepthOf(a, peak) < 0.0
  {
  }

  /** The first listed depth is the minimum of the drawdown series, attained at the listed trough;
      the table is empty exactly when the series never dips. */
  lemma WorstFirst(curve: seq<real>)
    requires Positive(curve)
    ensures Table(curve) == [] <==> forall j :: 0 <= j < |curve| ==> SeriesAt(curve, j) == 0.0
    ensures Table(curve) != [] ==>
              var worst := Table(curve)[0];
              && worst.trough < |curve| && worst.depth == SeriesAt(curve, worst.trough) < 0.0
              && forall j :: 0 <= j < |curve| ==> worst.depth <= SeriesAt(curve, j)
  {
    var table := Table(curve);
    if table != [] {
      TableIsTimeline(curve, table[0]);
      TimelineIsOrdered(curve);
      EpisodeDepth(curve, table[0]);
    }
    forall j | 0 <= j < |curve|
      ensures table == [] ==> SeriesAt(curve, j) == 0.0
      ensures table != [] ==> table[0].depth <= SeriesAt(curve, j)
    {
      NoBarIsWorse(curve, j);
    }
  }

  lemma NoBarIsWorse(curve: seq<real>, j: nat)
    requires j < |curve| && Positive(curve)
    ensures Table(curve) == [] ==> SeriesAt(curve, j) == 0.0
    ensures Table(curve) != [] && Table(curve)[0].depth < 0.0 ==> Table(curve)[0].depth <= SeriesAt(curve, j)
  {
    var table := Table(curve);
    PeakDominates(curve, j);
    EveryDipInExactlyOneEpisode(curve, j);
    if BelowPeak(curve, j) {
      var p :| p in table && Inside(p, |curve|, j);
      TableIsTimeline(curve, p);
      TimelineIsOrdered(curve);
      PeakHolds(curve, p, j);
      DeeperIsLower(curve[p.trough], curve[j], curve[p.peak]);
    }
  }

  lemma EpisodeDepth(curve: seq<real>, p: Period)
    requires Positive(curve) && Episode(curve, |curve|, p)
    ensures p.trough < |curve| && p.depth == SeriesAt(curve, p.trough) < 0.0
  {
    PeakHolds(curve, p, p.trough);
    DeeperIsLower(curve[p.trough], curve[p.peak], curve[p.peak]);
  }

  lemma {:induction false} PeakDominates(curve: seq<real>, j: nat)
    requires j < |curve| && Positive(curve)
    ensures RunningPeak(curve, j) >= curve[j] && RunningPeak(curve, j) > 0.0
  {
    if j > 0 {
      PeakDominates(curve, j - 1);
    }
  }
}
