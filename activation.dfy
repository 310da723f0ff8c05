/**
 * The irradiation profile of mckit's activation driver: a ledger of
 * irradiation and relaxation steps (flux, duration in seconds, output
 * record) from which the FISPACT time lines are produced.
 *
 * The unit table `TIME_UNITS` lives in `mckit/constants.py`, which is not
 * part of this model; it is a parameter of type `TimeUnits`: a map that
 * holds the five sort units and whose factors are all positive.
 */
module Activation {
  import opened Wrappers

  datatype Error = ValueError | KeyError | IndexError | ZeroDivision

  /** The units `adjust_time` tries, largest first. */
  const SortUnits: seq<string> := ["YEARS", "DAYS", "HOURS", "MINS", "SECS"]

  predicate IsUnitTable(t: map<string, real>)
  {
    (forall u :: u in SortUnits ==> u in t) && (forall u :: u in t ==> t[u] > 0.0)
  }

  type TimeUnits = t: map<string, real> | IsUnitTable(t)
    witness map["YEARS" := 31536000.0, "DAYS" := 86400.0, "HOURS" := 3600.0, "MINS" := 60.0, "SECS" := 1.0]

  /** A record kind `irradiate` and `relax` accept; `None` stands for no record. */
  predicate KnownRecord(rec: Option<string>)
  {
    rec.None? || rec.value == "ATOMS" || rec.value == "SPEC"
  }

  /** The stored record text: no record is the empty string. */
  function RecordText(rec: Option<string>): (r: string)
    requires KnownRecord(rec)
    ensures rec.None? <==> r == ""
    ensures rec.Some? ==> r == rec.value
  {
    if rec.None? then "" else rec.value
  }

  // ---------------------------------------------------------------------
  // Sums and cumulative times
  // ---------------------------------------------------------------------

  function Sum(d: seq<real>): real
  {
    if d == [] then 0.0 else Sum(d[..|d| - 1]) + d[|d| - 1]
  }

  lemma {:induction false} SumAppend(a: seq<real>, b: seq<real>)
    ensures Sum(a + b) == Sum(a) + Sum(b)
    decreases |b|
  {
    if b == [] {
      assert a + b == a;
    } else {
      assert (a + b)[..|a + b| - 1] == a + b[..|b| - 1];
      SumAppend(a, b[..|b| - 1]);
    }
  }

  predicate AllPositive(d: seq<real>)
  {
    forall i :: 0 <= i < |d| ==> d[i] > 0.0
  }

  /** The running sums `accumulate(d)`: entry `i` is the time at the end of step `i`. */
  function Cumulative(d: seq<real>): (c: seq<real>)
    ensures |c| == |d|
  {
    if d == [] then [] else Cumulative(d[..|d| - 1]) + [Sum(d)]
  }

  /** Entry `i` of the running sums is the sum of the first `i + 1` durations. */
  lemma {:induction false} CumulativeAt(d: seq<real>, i: nat)
    requires i < |d|
    ensures Cumulative(d)[i] == Sum(d[..i + 1])
    decreases |d|
  {
    if i < |d| - 1 {
      CumulativeAt(d[..|d| - 1], i);
      assert d[..|d| - 1][..i + 1] == d[..i + 1];
    } else {
      assert d[..|d|] == d;
    }
  }

  predicate Sorted(a: seq<real>)
  {
    forall i, j :: 0 <= i <= j < |a| ==> a[i] <= a[j]
  }

  predicate StrictlyIncreasing(a: seq<real>)
  {
    forall i, j :: 0 <= i < j < |a| ==> a[i] < a[j]
  }

  /** With positive durations the end times of the steps strictly increase. */
  lemma {:induction false} CumulativeIncreasing(d: seq<real>)
    requires AllPositive(d)
    ensures StrictlyIncreasing(Cumulative(d))
  {
    var c := Cumulative(d);
    forall i, j | 0 <= i < j < |c|
      ensures c[i] < c[j]
    {
      CumulativeAt(d, i);
      CumulativeAt(d, j);
      SumAppend(d[..i + 1], d[i + 1..j + 1]);
      assert d[..i + 1] + d[i + 1..j + 1] == d[..j + 1];
      SumPositive(d[i + 1..j + 1]);
    }
  }

  lemma {:induction false} SumPositive(d: seq<real>)
    requires d != [] && AllPositive(d)
    ensures Sum(d) > 0.0
    decreases |d|
  {
    if |d| > 1 {
      SumPositive(d[..|d| - 1]);
    }
  }

  // ---------------------------------------------------------------------
  // numpy.searchsorted(a, x), side 'left'
  // ---------------------------------------------------------------------

  /** The bisection of `searchsorted` on the half-open range `[lo, hi)`. */
  function BisectLeft(a: seq<real>, x: real, lo: nat, hi: nat): (k: nat)
    requires lo <= hi <= |a|
    ensures lo <= k <= hi
    decreases hi - lo
  {
    if lo >= hi then lo
    else
      var mid := lo + (hi - lo) / 2;
      if a[mid] < x then BisectLeft(a, x, mid + 1, hi) else BisectLeft(a, x, lo, mid)
  }

  function SearchSorted(a: seq<real>, x: real): (k: nat)
    ensures k <= |a|
  {
    BisectLeft(a, x, 0, |a|)
  }

  /** Every entry before index `k` is below `x`. */
  predicate Below(a: seq<real>, x: real, k: nat)
  {
    forall j :: 0 <= j < k && j < |a| ==> a[j] < x
  }

  /** Every entry from index `k` on is at least `x`. */
  predicate AtLeast(a: seq<real>, x: real, k: nat)
  {
    forall j :: k <= j < |a| ==> x <= a[j]
  }

  lemma {:induction false} BisectLeftFinds(a: seq<real>, x: real, lo: nat, hi: nat)
    requires lo <= hi <= |a| && Sorted(a)
    requires Below(a, x, lo) && AtLeast(a, x, hi)
    ensures Below(a, x, BisectLeft(a, x, lo, hi)) && AtLeast(a, x, BisectLeft(a, x, lo, hi))
    decreases hi - lo
  {
    if lo < hi {
      var mid := lo + (hi - lo) / 2;
      if a[mid] < x {
        forall j | 0 <= j < mid + 1
          ensures a[j] < x
        {
          if j >= lo {
            assert a[j] <= a[mid];
          }
        }
        assert Below(a, x, mid + 1);
        BisectLeftFinds(a, x, mid + 1, hi);
      } else {
        forall j | mid <= j < |a|
          ensures x <= a[j]
        {
          if j < hi {
            assert a[mid] <= a[j];
          }
        }
        assert AtLeast(a, x, mid);
        BisectLeftFinds(a, x, lo, mid);
      }
    }
  }

  /** On a sorted array the index splits the entries below `x` from those at or above it. */
  lemma SearchSortedSplits(a: seq<real>, x: real)
    requires Sorted(a)
    ensures var k := SearchSorted(a, x);
            (forall j :: 0 <= j < k ==> a[j] < x) && (forall j :: k <= j < |a| ==> x <= a[j])
  {
    BisectLeftFinds(a, x, 0, |a|);
    var k := SearchSorted(a, x);
    assert Below(a, x, k) && AtLeast(a, x, k);
  }

  // ---------------------------------------------------------------------
  // Output times
  // ---------------------------------------------------------------------

  /** The end times of the first `n` steps whose record is non-empty. */
  function RecordedTimes(d: seq<real>, r: seq<string>, n: nat): seq<real>
    requires n <= |d| && n <= |r|
  {
    if n == 0 then []
    else RecordedTimes(d, r, n - 1) + (if r[n - 1] != "" then [Sum(d[..n])] else [])
  }

  function CountRecords(r: seq<string>): nat
  {
    if r == [] then 0 else CountRecords(r[..|r| - 1]) + (if r[|r| - 1] != "" then 1 else 0)
  }

  /** There is one output time per recorded step. */
  lemma {:induction false} RecordedTimesCount(d: seq<real>, r: seq<string>, n: nat)
    requires n <= |d| && n <= |r|
    ensures |RecordedTimes(d, r, n)| == CountRecords(r[..n])
  {
    if n > 0 {
      RecordedTimesCount(d, r, n - 1);
      assert r[..n][..n - 1] == r[..n - 1];
    }
  }

  /**
   * With positive durations the output times strictly increase, are
   * positive and do not exceed the total time of the steps looked at.
   */
  lemma {:induction false} RecordedTimesIncreasing(d: seq<real>, r: seq<string>, n: nat)
    requires n <= |d| && n <= |r| && AllPositive(d)
    ensures StrictlyIncreasing(RecordedTimes(d, r, n))
    ensures forall i :: 0 <= i < |RecordedTimes(d, r, n)| ==>
              0.0 < RecordedTimes(d, r, n)[i] <= Sum(d[..n])
  {
    if n > 0 {
      RecordedTimesIncreasing(d, r, n - 1);
      var prev := RecordedTimes(d, r, n - 1);
      var c := Cumulative(d);
      CumulativeIncreasing(d);
      SumPositive(d[..n]);
      CumulativeAt(d, n - 1);
      if n > 1 {
        CumulativeAt(d, n - 2);
        assert c[n - 2] < c[n - 1];
      } else {
        assert prev == [];
      }
      assert forall i :: 0 <= i < |prev| ==> prev[i] < Sum(d[..n]);
    }
  }

  // ---------------------------------------------------------------------
  // adjust_time
  // ---------------------------------------------------------------------

  /**
   * The position, from `i` on, of the first sort unit in which `time` is at
   * least one, or 5 when there is none.
   */
  function FirstUnitFrom(time: real, table: TimeUnits, i: nat): (k: nat)
    requires i <= 5
    ensures i <= k <= 5
    decreases 5 - i
  {
    if i == 5 then 5
    else if time >= table[SortUnits[i]] then i
    else FirstUnitFrom(time, table, i + 1)
  }

  /** With a positive unit, a time is at least one unit exactly when it is at least the unit. */
  lemma AtLeastOneUnit(time: real, unit: real)
    requires unit > 0.0
    ensures time / unit >= 1.0 <==> time >= unit
  {
    var q := time / unit;
    assert q * unit == time;
    if q >= 1.0 {
      assert q * unit >= 1.0 * unit;
    } else {
      assert q * unit < 1.0 * unit;
    }
  }

  lemma {:induction false} FirstUnitFromIsFirst(time: real, table: TimeUnits, i: nat)
    requires i <= 5
    ensures var k := FirstUnitFrom(time, table, i);
            && (forall j :: i <= j < k ==> time / table[SortUnits[j]] < 1.0)
            && (k < 5 ==> time / table[SortUnits[k]] >= 1.0)
    decreases 5 - i
  {
    if i < 5 {
      AtLeastOneUnit(time, table[SortUnits[i]]);
      if time < table[SortUnits[i]] {
        FirstUnitFromIsFirst(time, table, i + 1);
      }
    }
  }

  /**
   * `adjust_time`: the time in the largest of years, days, hours, minutes
   * and seconds in which it is at least one; failing all, the time itself
   * in seconds.
   */
  function AdjustedTime(time: real, table: TimeUnits): (real, string)
  {
    var k := FirstUnitFrom(time, table, 0);
    if k < 5 then (time / table[SortUnits[k]], SortUnits[k]) else (time, "SECS")
  }

  /**
   * The time comes back in the largest sort unit in which it is at least
   * one, every larger unit giving less than one; when no unit gives at least
   * one, it comes back unchanged in seconds.
   */
  lemma AdjustedTimeLargestUnit(time: real, table: TimeUnits)
    ensures var (d, u) := AdjustedTime(time, table);
            || (exists k :: 0 <= k < 5 && u == SortUnits[k] && d == time / table[u] && d >= 1.0 &&
                  forall j :: 0 <= j < k ==> time / table[SortUnits[j]] < 1.0)
            || (u == "SECS" && d == time && forall j :: 0 <= j < 5 ==> time / table[SortUnits[j]] < 1.0)
  {
    FirstUnitFromIsFirst(time, table, 0);
    var k := FirstUnitFrom(time, table, 0);
    if k < 5 {
      assert AdjustedTime(time, table).1 == SortUnits[k];
    }
  }

  /** `IrradiationProfile.adjust_time`: an early-return scan over the sort units. */
  method AdjustTime(time: real, table: TimeUnits) returns (d: real, unit: string)
    ensures (d, unit) == AdjustedTime(time, table)
  {
    var i := 0;
    while i < |SortUnits|
      invariant 0 <= i <= |SortUnits|
      invariant FirstUnitFrom(time, table, i) == FirstUnitFrom(time, table, 0)
    {
      var u := SortUnits[i];
      d := time / table[u];
      AtLeastOneUnit(time, table[u]);
      if d >= 1.0 {
        unit := u;
        return;
      }
      i := i + 1;
    }
    d, unit := time, "SECS";
  }

  // ---------------------------------------------------------------------
  // insert_record
  // ---------------------------------------------------------------------

  /** The fluxes after step `k` is split: the step's flux is repeated. */
  function SplitFlux(f: seq<real>, k: nat): (r: seq<real>)
    requires k < |f|
    ensures |r| == |f| + 1 && r[k] == r[k + 1] == f[k]
    ensures r[..k] == f[..k] && r[k + 1..] == f[k..]
  {
    f[..k] + [f[k]] + f[k..]
  }

  /**
   * The durations after step `k`, which ends at `end`, is split at time
   * `t`: the first part ends at `t`, the second part is the rest.
   */
  function SplitDurations(d: seq<real>, k: nat, end: real, t: real): (r: seq<real>)
    requires k < |d|
    ensures |r| == |d| + 1 && r[k] + r[k + 1] == d[k]
    ensures r[..k] == d[..k] && r[k + 2..] == d[k + 1..]
  {
    d[..k] + [d[k] - (end - t), end - t] + d[k + 1..]
  }

  lemma SumSnoc(d: seq<real>, k: nat)
    requires k < |d|
    ensures Sum(d[..k + 1]) == Sum(d[..k]) + d[k]
  {
    assert d[..k + 1][..k] == d[..k];
  }

  lemma SumSplit(d: seq<real>, k: nat)
    requires k <= |d|
    ensures Sum(d) == Sum(d[..k]) + Sum(d[k..])
  {
    assert d == d[..k] + d[k..];
    SumAppend(d[..k], d[k..]);
  }

  /** Splitting a step leaves the total duration of the profile unchanged. */
  lemma {:induction false} SplitKeepsTotal(d: seq<real>, k: nat, end: real, t: real)
    requires k < |d|
    ensures Sum(SplitDurations(d, k, end, t)) == Sum(d)
  {
    var r := SplitDurations(d, k, end, t);
    SumSplit(r, k + 2);
    SumSplit(d, k + 1);
    SumSnoc(r, k + 1);
    SumSnoc(r, k);
    SumSnoc(d, k);
  }

  /** The step that `searchsorted` finds ends at or after `t`, and the step before it ends before `t`. */
  lemma SplitBounds(d: seq<real>, t: real)
    requires AllPositive(d)
    ensures var c := Cumulative(d);
            var k := SearchSorted(c, t);
            (0 < k ==> c[k - 1] < t) && (k < |d| ==> t <= c[k])
  {
    CumulativeIncreasing(d);
    SearchSortedSplits(Cumulative(d), t);
  }

  /**
   * Inserting at time `t` inside step `k` of a profile with positive
   * durations puts the end of the new step exactly at `t`; both parts are
   * positive when `0 < t` and `t` is not already the end of a step, and the
   * second part is empty when `t` is exactly the end of step `k`.
   */
  lemma SplitAtTime(d: seq<real>, t: real)
    requires AllPositive(d)
    requires SearchSorted(Cumulative(d), t) < |d|
    ensures var k := SearchSorted(Cumulative(d), t);
            var r := SplitDurations(d, k, Cumulative(d)[k], t);
            && Cumulative(r)[k] == t
            && (r[k + 1] == 0.0 <==> t == Cumulative(d)[k])
            && (0.0 < t && t != Cumulative(d)[k] ==> AllPositive(r))
  {
    var c := Cumulative(d);
    var k := SearchSorted(c, t);
    var r := SplitDurations(d, k, c[k], t);
    SplitEndsAt(d, k, t);
    SplitBounds(d, t);
    if 0.0 < t && t != c[k] {
      CumulativeAt(d, k);
      if k > 0 {
        PrefixEnd(d, k);
      } else {
        SumSnoc(d, 0);
      }
      assert r[k] > 0.0;
      SplitPositive(d, r, k);
    }
  }

  /**
   * The end of a non-empty profile: `searchsorted` finds no step exactly when
   * `t` lies strictly past the total duration, and a time exactly at the
   * total lands on the last step, whose second part then lasts zero.
   */
  lemma EndOfProfile(d: seq<real>, t: real)
    requires AllPositive(d) && d != []
    ensures var c := Cumulative(d);
            var k := SearchSorted(c, t);
            && (k == |d| <==> t > Sum(d))
            && (t == Sum(d) ==> k == |d| - 1 && SplitDurations(d, k, c[k], t)[k + 1] == 0.0)
  {
    var c := Cumulative(d);
    var n := |d| - 1;
    assert d[..n + 1] == d;
    CumulativeAt(d, n);
    CumulativeIncreasing(d);
    SplitBounds(d, t);
  }

  lemma PrefixEnd(d: seq<real>, k: nat)
    requires 0 < k < |d|
    ensures Sum(d[..k + 1]) == Cumulative(d)[k - 1] + d[k]
  {
    SumSnoc(d, k);
    CumulativeAt(d, k - 1);
  }

  /** The first part of the split step ends at `t`. */
  lemma SplitEndsAt(d: seq<real>, k: nat, t: real)
    requires k < |d|
    ensures Cumulative(SplitDurations(d, k, Cumulative(d)[k], t))[k] == t
  {
    var r := SplitDurations(d, k, Cumulative(d)[k], t);
    SumSnoc(r, k);
    SumSnoc(d, k);
    CumulativeAt(d, k);
    CumulativeAt(r, k);
  }

  lemma SplitPositive(d: seq<real>, r: seq<real>, k: nat)
    requires AllPositive(d) && k < |d| && |r| == |d| + 1
    requires r[..k] == d[..k] && r[k + 2..] == d[k + 1..]
    requires r[k] > 0.0 && r[k + 1] > 0.0
    ensures AllPositive(r)
  {
    forall i | 0 <= i < |r|
      ensures r[i] > 0.0
    {
      if i < k {
        assert r[i] == r[..k][i];
      } else if i > k + 1 {
        assert r[i] == r[k + 2..][i - k - 2];
      }
    }
  }

  // ---------------------------------------------------------------------
  // output
  // ---------------------------------------------------------------------

  /** An output line; the text formatting of the numbers is not modelled. */
  datatype Line = FluxLine(flux: real) | TimeLine(time: real, unit: string, rec: string)

  /** The scaled flux before step `i`; the profile starts from zero flux. */
  function Previous(s: seq<real>, i: nat): real
    requires i <= |s|
  {
    if i == 0 then 0.0 else s[i - 1]
  }

  /**
   * The lines of step `i`: a FLUX line when its scaled flux changes, then
   * its TIME line with the step's duration in the unit `adjust_time` chose.
   */
  function StepLines(s: seq<real>, a: seq<(real, string)>, r: seq<string>, i: nat): seq<Line>
    requires i < |s| && i < |a| && i < |r|
  {
    (if s[i] != Previous(s, i) then [FluxLine(s[i])] else []) + [TimeLine(a[i].0, a[i].1, r[i])]
  }

  /** The lines of the first `n` steps, given their scaled fluxes `s` and adjusted durations `a`. */
  function Lines(s: seq<real>, a: seq<(real, string)>, r: seq<string>, n: nat): seq<Line>
    requires n <= |s| && n <= |a| && n <= |r|
  {
    if n == 0 then [] else Lines(s, a, r, n - 1) + StepLines(s, a, r, n - 1)
  }

  function TimeLines(lines: seq<Line>): seq<Line>
  {
    if lines == [] then []
    else TimeLines(lines[..|lines| - 1]) + (if lines[|lines| - 1].TimeLine? then [lines[|lines| - 1]] else [])
  }

  function FluxValues(lines: seq<Line>): seq<real>
  {
    if lines == [] then []
    else FluxValues(lines[..|lines| - 1]) + (if lines[|lines| - 1].FluxLine? then [lines[|lines| - 1].flux] else [])
  }

  lemma {:induction false} TimeLinesAppend(a: seq<Line>, b: seq<Line>)
    ensures TimeLines(a + b) == TimeLines(a) + TimeLines(b)
    decreases |b|
  {
    if b == [] {
      assert a + b == a;
    } else {
      assert (a + b)[..|a + b| - 1] == a + b[..|b| - 1];
      TimeLinesAppend(a, b[..|b| - 1]);
    }
  }

  lemma {:induction false} FluxValuesAppend(a: seq<Line>, b: seq<Line>)
    ensures FluxValues(a + b) == FluxValues(a) + FluxValues(b)
    decreases |b|
  {
    if b == [] {
      assert a + b == a;
    } else {
      assert (a + b)[..|a + b| - 1] == a + b[..|b| - 1];
      FluxValuesAppend(a, b[..|b| - 1]);
    }
  }

  /** The TIME line of one step. */
  lemma StepTimeLine(s: seq<real>, a: seq<(real, string)>, r: seq<string>, i: nat)
    requires i < |s| && i < |a| && i < |r|
    ensures TimeLines(StepLines(s, a, r, i)) ==
              [TimeLine(a[i].0, a[i].1, r[i])]
  {
    var adjusted := a[i];
    var time := [TimeLine(adjusted.0, adjusted.1, r[i])];
    var flux := if s[i] != Previous(s, i) then [FluxLine(s[i])] else [];
    TimeLinesAppend(flux, time);
    assert TimeLines(time) == time;
    assert TimeLines([FluxLine(s[i])]) == [];
  }

  /** The FLUX value of one step, if any. */
  lemma StepFluxValue(s: seq<real>, a: seq<(real, string)>, r: seq<string>, i: nat)
    requires i < |s| && i < |a| && i < |r|
    ensures FluxValues(StepLines(s, a, r, i)) == if s[i] != Previous(s, i) then [s[i]] else []
  {
    var adjusted := a[i];
    var time := [TimeLine(adjusted.0, adjusted.1, r[i])];
    var flux := if s[i] != Previous(s, i) then [FluxLine(s[i])] else [];
    FluxValuesAppend(flux, time);
    assert FluxValues(time) == [];
    assert FluxValues([FluxLine(s[i])]) == [s[i]];
  }

  /** The TIME lines `t` carry, in order, the adjusted duration and the record of the first `n` steps. */
  predicate TimesMatch(t: seq<Line>, a: seq<(real, string)>, r: seq<string>, n: nat)
  {
    |t| == n && n <= |a| && n <= |r|
    && forall i :: 0 <= i < n ==> t[i] == TimeLine(a[i].0, a[i].1, r[i])
  }

  lemma TimesMatchStep(t: seq<Line>, a: seq<(real, string)>, r: seq<string>, n: nat)
    requires TimesMatch(t, a, r, n) && n < |a| && n < |r|
    ensures TimesMatch(t + [TimeLine(a[n].0, a[n].1, r[n])], a, r, n + 1)
  {
  }

  /** Appending a block of lines appends its TIME lines. */
  lemma TimeLinesStep(prev: seq<Line>, step: seq<Line>, tail: seq<Line>)
    requires TimeLines(step) == tail
    ensures TimeLines(prev + step) == TimeLines(prev) + tail
  {
    TimeLinesAppend(prev, step);
  }

  /** `output` writes exactly one TIME line per step, carrying the step's adjusted duration and record. */
  lemma {:induction false} OutputTimeLines(s: seq<real>, a: seq<(real, string)>, r: seq<string>, n: nat)
    requires n <= |s| && n <= |a| && n <= |r|
    ensures TimesMatch(TimeLines(Lines(s, a, r, n)), a, r, n)
  {
    if n > 0 {
      OutputTimeLines(s, a, r, n - 1);
      assert Lines(s, a, r, n) == Lines(s, a, r, n - 1) + StepLines(s, a, r, n - 1);
      StepTimeLine(s, a, r, n - 1);
      TimeLinesStep(Lines(s, a, r, n - 1), StepLines(s, a, r, n - 1), [TimeLine(a[n - 1].0, a[n - 1].1, r[n - 1])]);
      TimesMatchStep(TimeLines(Lines(s, a, r, n - 1)), a, r, n - 1);
    }
  }

  /** The flux values of the first `n` steps: those of the first `n - 1`, then the change at step `n - 1`. */
  lemma FluxValuesStep(s: seq<real>, a: seq<(real, string)>, r: seq<string>, n: nat)
    requires 0 < n <= |s| && n <= |a| && n <= |r|
    ensures FluxValues(Lines(s, a, r, n)) ==
              FluxValues(Lines(s, a, r, n - 1)) + (if s[n - 1] != Previous(s, n - 1) then [s[n - 1]] else [])
  {
    assert Lines(s, a, r, n) == Lines(s, a, r, n - 1) + StepLines(s, a, r, n - 1);
    StepFluxValue(s, a, r, n - 1);
    FluxValuesStepOf(Lines(s, a, r, n - 1), StepLines(s, a, r, n - 1),
                     if s[n - 1] != Previous(s, n - 1) then [s[n - 1]] else []);
  }

  /** Appending a block of lines appends its flux values. */
  lemma FluxValuesStepOf(prev: seq<Line>, step: seq<Line>, tail: seq<real>)
    requires FluxValues(step) == tail
    ensures FluxValues(prev + step) == FluxValues(prev) + tail
  {
    FluxValuesAppend(prev, step);
  }

  /**
   * The last FLUX line written carries the flux of the last step, and no
   * FLUX line is written exactly when every scaled flux is zero.
   */
  lemma {:induction false} OutputFluxLast(s: seq<real>, a: seq<(real, string)>, r: seq<string>, n: nat)
    requires n <= |s| && n <= |a| && n <= |r|
    ensures var v := FluxValues(Lines(s, a, r, n));
            && (v != [] ==> v[|v| - 1] == s[n - 1])
            && (v == [] <==> forall i :: 0 <= i < n ==> s[i] == 0.0)
  {
    if n > 0 {
      OutputFluxLast(s, a, r, n - 1);
      FluxValuesStep(s, a, r, n);
      var vp := FluxValues(Lines(s, a, r, n - 1));
      var v := FluxValues(Lines(s, a, r, n));
      var change := s[n - 1] != Previous(s, n - 1);
      assert v == vp + (if change then [s[n - 1]] else []);
      if vp == [] {
        assert Previous(s, n - 1) == 0.0 by {
          if n > 1 {
            assert s[n - 2] == 0.0;
          }
        }
        assert v == [] <==> s[n - 1] == 0.0;
      } else {
        var j :| 0 <= j < n - 1 && s[j] != 0.0;
        assert v != [];
        assert v[|v| - 1] == s[n - 1];
      }
    }
  }

  /** Neighbouring values differ, and the first is not zero. */
  predicate Changes(v: seq<real>)
  {
    (v != [] ==> v[0] != 0.0) && forall i :: 0 <= i < |v| - 1 ==> v[i] != v[i + 1]
  }

  /**
   * A FLUX line is written only when the scaled flux changes: the flux values
   * written never repeat the one before, and the first is not zero.
   */
  lemma {:induction false} OutputFluxChanges(s: seq<real>, a: seq<(real, string)>, r: seq<string>, n: nat)
    requires n <= |s| && n <= |a| && n <= |r|
    ensures Changes(FluxValues(Lines(s, a, r, n)))
  {
    if n > 0 {
      OutputFluxChanges(s, a, r, n - 1);
      OutputFluxLast(s, a, r, n - 1);
      FluxValuesStep(s, a, r, n);
      var vp := FluxValues(Lines(s, a, r, n - 1));
      if vp == [] && n > 1 {
        assert s[n - 2] == 0.0;
      }
      ChangesExtend(vp, s[n - 1], Previous(s, n - 1));
    }
  }

  /** Appending a value that differs from the last one keeps neighbouring values distinct. */
  lemma ChangesExtend(v: seq<real>, x: real, last: real)
    requires v != [] ==> v[|v| - 1] == last
    requires v == [] ==> last == 0.0
    requires Changes(v)
    ensures Changes(v + (if x != last then [x] else []))
  {
    var w := v + (if x != last then [x] else []);
    forall i | 0 <= i < |w| - 1
      ensures w[i] != w[i + 1]
    {
      if i + 1 < |v| {
        assert w[i] == v[i] && w[i + 1] == v[i + 1];
      }
    }
  }

  /** Every FLUX line carries the scaled flux of some step. */
  lemma {:induction false} OutputFluxValues(s: seq<real>, a: seq<(real, string)>, r: seq<string>, n: nat)
    requires n <= |s| && n <= |a| && n <= |r|
    ensures forall x :: x in FluxValues(Lines(s, a, r, n)) ==> x in s[..n]
  {
    if n > 0 {
      OutputFluxValues(s, a, r, n - 1);
      FluxValuesStep(s, a, r, n);
      assert s[..n] == s[..n - 1] + [s[n - 1]];
    }
  }

  /** The duration of every step in the unit `adjust_time` chooses for it. */
  function AdjustedTimes(d: seq<real>, table: TimeUnits): (a: seq<(real, string)>)
    ensures |a| == |d|
  {
    if d == [] then [] else AdjustedTimes(d[..|d| - 1], table) + [AdjustedTime(d[|d| - 1], table)]
  }

  lemma {:induction false} AdjustedTimesAt(d: seq<real>, table: TimeUnits, i: nat)
    requires i < |d|
    ensures AdjustedTimes(d, table)[i] == AdjustedTime(d[i], table)
    decreases |d|
  {
    if i < |d| - 1 {
      AdjustedTimesAt(d[..|d| - 1], table, i);
    }
  }

  /**
   * `output` writes exactly one TIME line per step, carrying the step's
   * duration in the largest unit in which it is at least one, and the
   * step's record.
   */
  lemma OutputTimeLinesAdjusted(s: seq<real>, d: seq<real>, r: seq<string>, n: nat, table: TimeUnits)
    requires n <= |s| && n <= |d| && n <= |r|
    ensures var t := TimeLines(Lines(s, AdjustedTimes(d, table), r, n));
            && |t| == n
            && forall i :: 0 <= i < n ==>
                 t[i] == TimeLine(AdjustedTime(d[i], table).0, AdjustedTime(d[i], table).1, r[i])
  {
    var a := AdjustedTimes(d, table);
    var t := TimeLines(Lines(s, a, r, n));
    OutputTimeLines(s, a, r, n);
    forall i | 0 <= i < n
      ensures t[i] == TimeLine(AdjustedTime(d[i], table).0, AdjustedTime(d[i], table).1, r[i])
    {
      AdjustedTimesAt(d, table, i);
      assert t[i] == TimeLine(a[i].0, a[i].1, r[i]);
    }
  }

  /** The fluxes of the steps multiplied by the normalisation factor. */
  function Scaled(f: seq<real>, factor: real): (s: seq<real>)
    ensures |s| == |f|
  {
    if f == [] then [] else [f[0] * factor] + Scaled(f[1..], factor)
  }

  lemma {:induction false} ScaledAt(f: seq<real>, factor: real, i: nat)
    requires i < |f|
    ensures Scaled(f, factor)[i] == f[i] * factor
  {
    if i > 0 {
      ScaledAt(f[1..], factor, i - 1);
    }
  }

  /** The normalisation factor: `nominal / norm` when both are set, else one. */
  function NormFactor(norm: Option<real>, nominal: Option<real>): (r: Result<real, Error>)
    ensures r.Err? <==> norm.Some? && nominal.Some? && norm.value == 0.0
    ensures r.Ok? && norm.Some? && nominal.Some? ==> r.value * norm.value == nominal.value
    ensures norm.None? || nominal.None? ==> r == Ok(1.0)
  {
    if norm.Some? && nominal.Some? then
      if norm.value == 0.0 then Err(ZeroDivision) else Ok(nominal.value / norm.value)
    else Ok(1.0)
  }

  // ---------------------------------------------------------------------
  // The profile
  // ---------------------------------------------------------------------

  class IrradiationProfile {
    var norm: Option<real>
    var flux: seq<real>
    var duration: seq<real>
    var record: seq<string>

    /** The three step lists stay parallel. */
    predicate Valid()
      reads this
    {
      |flux| == |duration| == |record|
    }

    /** No step has a negative flux or a non-positive duration. */
    predicate Physical()
      reads this
    {
      AllPositive(duration) && forall i :: 0 <= i < |flux| ==> flux[i] >= 0.0
    }

    constructor(normFlux: Option<real>)
      ensures norm == normFlux && flux == [] && duration == [] && record == []
      ensures Valid() && Physical()
    {
      norm := normFlux;
      flux := [];
      duration := [];
      record := [];
    }

    /**
     * `irradiate`: a step with the given flux and duration, after the
     * record, the flux, the duration and the unit are validated in that
     * order; with `nominal` its flux becomes the normalisation flux.
     */
    method Irradiate(f: real, time: real, units: string, rec: Option<string>, nominal: bool, table: TimeUnits)
      returns (r: Result<(), Error>)
      modifies this
      ensures !KnownRecord(rec) ==> r == Err(ValueError)
      ensures KnownRecord(rec) && (f < 0.0 || time <= 0.0) ==> r == Err(ValueError)
      ensures KnownRecord(rec) && f >= 0.0 && time > 0.0 && units !in table ==> r == Err(KeyError)
      ensures r.Ok? <==> KnownRecord(rec) && f >= 0.0 && time > 0.0 && units in table
      ensures r.Err? ==> unchanged(this)
      ensures r.Ok? ==>
                && flux == old(flux) + [f]
                && duration == old(duration) + [time * table[units]]
                && record == old(record) + [RecordText(rec)]
                && norm == (if nominal then Some(f) else old(norm))
      ensures old(Valid()) ==> Valid()
      ensures old(Physical()) ==> Physical()
    {
      if !KnownRecord(rec) {
        return Err(ValueError);
      }
      if f < 0.0 || time <= 0.0 {
        return Err(ValueError);
      }
      if units !in table {
        return Err(KeyError);
      }
      flux := flux + [f];
      duration := duration + [time * table[units]];
      record := record + [RecordText(rec)];
      if nominal {
        norm := Some(f);
      }
      r := Ok(());
    }

    /**
     * `irradiate` as written: the flux is appended before the unit is
     * looked up, so an unknown unit leaves one more flux than durations.
     */
    method IrradiateAsWritten(f: real, time: real, units: string, rec: Option<string>, nominal: bool, table: TimeUnits)
      returns (r: Result<(), Error>)
      modifies this
      ensures KnownRecord(rec) && f >= 0.0 && time > 0.0 && units !in table ==>
                && r == Err(KeyError)
                && flux == old(flux) + [f] && duration == old(duration) && record == old(record)
                && (old(Valid()) ==> !Valid())
      ensures r.Ok? ==> units in table && flux == old(flux) + [f] && duration == old(duration) + [time * table[units]]
    {
      if !KnownRecord(rec) {
        return Err(ValueError);
      }
      if f < 0.0 || time <= 0.0 {
        return Err(ValueError);
      }
      flux := flux + [f];
      if units !in table {
        return Err(KeyError);
      }
      duration := duration + [time * table[units]];
      record := record + [RecordText(rec)];
      if nominal {
        norm := Some(f);
      }
      r := Ok(());
    }

    /** `relax`: a step with zero flux, validated like `irradiate` without the flux check. */
    method Relax(time: real, units: string, rec: Option<string>, table: TimeUnits)
      returns (r: Result<(), Error>)
      modifies this
      ensures !KnownRecord(rec) || time <= 0.0 ==> r == Err(ValueError)
      ensures KnownRecord(rec) && time > 0.0 && units !in table ==> r == Err(KeyError)
      ensures r.Ok? <==> KnownRecord(rec) && time > 0.0 && units in table
      ensures r.Err? ==> unchanged(this)
      ensures r.Ok? ==>
                && flux == old(flux) + [0.0]
                && duration == old(duration) + [time * table[units]]
                && record == old(record) + [RecordText(rec)]
                && norm == old(norm)
      ensures old(Valid()) ==> Valid()
      ensures old(Physical()) ==> Physical()
    {
      if !KnownRecord(rec) {
        return Err(ValueError);
      }
      if time <= 0.0 {
        return Err(ValueError);
      }
      if units !in table {
        return Err(KeyError);
      }
      flux := flux + [0.0];
      duration := duration + [time * table[units]];
      record := record + [RecordText(rec)];
      r := Ok(());
    }

    /** `relax` as written: the zero flux is appended before the unit is looked up. */
    method RelaxAsWritten(time: real, units: string, rec: Option<string>, table: TimeUnits)
      returns (r: Result<(), Error>)
      modifies this
      ensures KnownRecord(rec) && time > 0.0 && units !in table ==>
                && r == Err(KeyError)
                && flux == old(flux) + [0.0] && duration == old(duration) && record == old(record)
                && (old(Valid()) ==> !Valid())
      ensures r.Ok? ==> units in table && flux == old(flux) + [0.0] && duration == old(duration) + [time * table[units]]
    {
      if !KnownRecord(rec) {
        return Err(ValueError);
      }
      if time <= 0.0 {
        return Err(ValueError);
      }
      flux := flux + [0.0];
      if units !in table {
        return Err(KeyError);
      }
      duration := duration + [time * table[units]];
      record := record + [RecordText(rec)];
      r := Ok(());
    }

    /** `measure_times`: the running time at the end of every recorded step. */
    method MeasureTimes() returns (times: seq<real>)
      ensures var n := if |duration| < |record| then |duration| else |record|;
              times == RecordedTimes(duration, record, n)
    {
      var n := if |duration| < |record| then |duration| else |record|;
      times := [];
      var time := 0.0;
      var i := 0;
      while i < n
        invariant 0 <= i <= n
        invariant time == Sum(duration[..i])
        invariant times == RecordedTimes(duration, record, i)
      {
        assert duration[..i + 1][..i] == duration[..i];
        time := time + duration[i];
        if record[i] != "" {
          times := times + [time];
        }
        i := i + 1;
      }
    }

    /**
     * `insert_record`: a step boundary with the given record at `time`. The
     * step that contains it is split in two: the first part ends at `time`
     * and carries the record, both keep the step's flux. A time strictly
     * past the end of the profile fails on the flux lookup before anything
     * changes; a time exactly at the end splits the last step, leaving a
     * second part of zero duration.
     */
    method InsertRecord(rec: string, time: real, units: string, table: TimeUnits)
      returns (r: Result<(), Error>)
      requires Valid()
      modifies this
      ensures units !in table ==> r == Err(KeyError) && unchanged(this)
      ensures units in table ==>
                var t := time * table[units];
                var k := SearchSorted(Cumulative(old(duration)), t);
                && (k >= |old(flux)| ==> r == Err(IndexError) && unchanged(this))
                && (k < |old(flux)| ==>
                      && r == Ok(())
                      && flux == SplitFlux(old(flux), k)
                      && record == old(record)[..k] + [rec] + old(record)[k..]
                      && duration == SplitDurations(old(duration), k, Cumulative(old(duration))[k], t)
                      && norm == old(norm))
      ensures Valid()
    {
      if units !in table {
        return Err(KeyError);
      }
      var t := time * table[units];
      var cum := Cumulative(duration);
      var k := SearchSorted(cum, t);
      if k >= |flux| {
        return Err(IndexError);
      }
      flux := flux[..k] + [flux[k]] + flux[k..];
      record := record[..k] + [rec] + record[k..];
      var delta := cum[k] - t;
      duration := duration[..k] + [duration[k] - delta] + duration[k..];
      duration := duration[k + 1 := delta];
      r := Ok(());
    }

    /**
     * `output`: the FLUX and TIME lines of the profile, with the fluxes
     * scaled by `nominal / norm`; a zero normalisation flux divides by zero.
     * Fluxes and durations are real numbers here, so the failure of the
     * `{0:.5}` format on a Python integer (the integer zero flux of `relax`
     * scaled by the integer factor 1) has no counterpart.
     */
    method Output(nominal: Option<real>, table: TimeUnits) returns (r: Result<seq<Line>, Error>)
      ensures NormFactor(norm, nominal).Err? ==> r == Err(ZeroDivision)
      ensures NormFactor(norm, nominal).Ok? ==>
                var n := Min3(|flux|, |duration|, |record|);
                r == Ok(Lines(Scaled(flux, NormFactor(norm, nominal).value), AdjustedTimes(duration, table), record, n))
    {
      var normFactor := NormFactor(norm, nominal);
      if normFactor.Err? {
        return Err(normFactor.error);
      }
      var lines := ScaledLines(flux, duration, record, normFactor.value, table);
      r := Ok(lines);
    }
  }

  function Min3(a: nat, b: nat, c: nat): (m: nat)
    ensures m <= a && m <= b && m <= c && (m == a || m == b || m == c)
  {
    if a <= b && a <= c then a else if b <= c then b else c
  }

  /** The loop of `output` over the parallel step lists, from a previous flux of zero. */
  method ScaledLines(f: seq<real>, d: seq<real>, r: seq<string>, factor: real, table: TimeUnits)
    returns (lines: seq<Line>)
    ensures lines == Lines(Scaled(f, factor), AdjustedTimes(d, table), r, Min3(|f|, |d|, |r|))
  {
    ghost var s := Scaled(f, factor);
    ghost var a := AdjustedTimes(d, table);
    lines := [];
    var last := 0.0;
    var i := 0;
    while i < |f| && i < |d| && i < |r|
      invariant 0 <= i <= |f| && i <= |d| && i <= |r|
      invariant last == Previous(s, i)
      invariant lines == Lines(s, a, r, i)
    {
      var cur := f[i] * factor;
      ScaledAt(f, factor, i);
      if cur != last {
        lines := lines + [FluxLine(cur)];
      }
      var time, unit := AdjustTime(d[i], table);
      AdjustedTimesAt(d, table, i);
      lines := lines + [TimeLine(time, unit, r[i])];
      last := cur;
      i := i + 1;
    }
  }
}
