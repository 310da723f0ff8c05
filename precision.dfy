/**
 * The number of significant digits a value needs: a bisection over the
 * count of decimal places, between 0 and the precision of a double, for the
 * least count whose rounding keeps the relative error within a tolerance;
 * and the elementwise versions over arrays.
 */
module Precision {
  import opened Wrappers

  /** `np.finfo(float).precision`: the decimal digits a double holds. */
  const MaxDigits: nat := 15

  function Abs(x: real): real
  {
    if x < 0.0 then -x else x
  }

  function Max(x: real, y: real): real
  {
    if x < y then y else x
  }

  /**
   * Python's `round(0.5 * n)` for a whole n: the nearest integer to n / 2,
   * the even one when n is odd.
   */
  function HalfRoundedEven(n: nat): (p: nat)
    ensures -1 <= 2 * p - n <= 1
    ensures n % 2 == 1 ==> p % 2 == 0
  {
    if n % 2 == 0 then n / 2
    else if (n / 2) % 2 == 0 then n / 2
    else n / 2 + 1
  }

  /**
   * The tolerance test for p decimal places: rounding the value to p places
   * keeps the error relative to the larger magnitude within the tolerance,
   * or both are zero. `round` is the rounding to decimal places.
   */
  predicate Tolerated(value: real, reltol: real, round: (real, int) -> real, p: nat)
  {
    !Exceeds(value, round(value, p), reltol)
  }

  /** The rounded value `v` is off by more than the tolerance, relative to the larger magnitude of the two. */
  predicate Exceeds(value: real, v: real, reltol: real)
  {
    var d := Max(Abs(value), Abs(v));
    d != 0.0 && Abs(value - v) / d > reltol
  }

  /** `resolution and abs(value) < resolution`: a value treated as zero. */
  predicate BelowResolution(value: real, resolution: Option<real>)
  {
    resolution.Some? && resolution.value != 0.0 && Abs(value) < resolution.value
  }

  /** The tolerance test as a predicate on the count of decimal places. */
  function Test(value: real, reltol: real, round: (real, int) -> real): nat -> bool
  {
    (p: nat) => Tolerated(value, reltol, round, p)
  }

  /** The bisection between `low`, which is 0 or fails the test, and `high`, which is the maximum or passes it. */
  function Bisect(ok: nat -> bool, low: nat, high: nat): (h: nat)
    requires low < high <= MaxDigits
    ensures low < h <= high
    decreases high - low
  {
    if high - low > 1 then
      var p := HalfRoundedEven(high + low);
      if ok(p) then Bisect(ok, low, p) else Bisect(ok, p, high)
    else high
  }

  /** What `significant_digits` returns. */
  function Digits(value: real, reltol: real, resolution: Option<real>, round: (real, int) -> real): nat
  {
    if BelowResolution(value, resolution) then 0 else Bisect(Test(value, reltol, round), 0, MaxDigits)
  }

  /**
   * `significant_digits`: 0 for a value below the resolution, otherwise the
   * bisection, which keeps `low < high` and narrows the gap every step.
   */
  method SignificantDigits(value: real, reltol: real, resolution: Option<real>, round: (real, int) -> real)
    returns (digits: nat)
    ensures digits == Digits(value, reltol, resolution, round)
  {
    if resolution.Some? && resolution.value != 0.0 && Abs(value) < resolution.value {
      return 0;
    }
    ghost var ok := Test(value, reltol, round);
    var low: nat := 0;
    var high: nat := MaxDigits;
    while high - low > 1
      invariant low < high <= MaxDigits
      invariant low == 0 || !ok(low)
      invariant high == MaxDigits || ok(high)
      invariant Bisect(ok, low, high) == Bisect(ok, 0, MaxDigits)
      decreases high - low
    {
      var p := HalfRoundedEven(high + low);
      var v := round(value, p);
      assert ok(p) == !Exceeds(value, v, reltol);
      if Exceeds(value, v, reltol) {
        low := p;
      } else {
        high := p;
      }
    }
    return high;
  }

  /** The midpoint lies strictly inside a gap of two or more, so the bisection always narrows. */
  lemma MidpointInside(low: nat, high: nat)
    requires low + 2 <= high
    ensures low < HalfRoundedEven(low + high) < high
  {
  }

  /** `h` passes the test, or is the maximum, and `h - 1` fails it, or is 0. */
  predicate Boundary(ok: nat -> bool, h: nat)
  {
    1 <= h <= MaxDigits && (h == MaxDigits || ok(h)) && (h == 1 || !ok(h - 1))
  }

  /**
   * The bisection ends on a boundary of the test: the count it returns passes
   * (or is the maximum) and the count just below fails (or is 0).
   */
  lemma {:induction false} BisectBoundary(ok: nat -> bool, low: nat, high: nat)
    requires low < high <= MaxDigits
    requires low == 0 || !ok(low)
    requires high == MaxDigits || ok(high)
    ensures Boundary(ok, Bisect(ok, low, high))
    decreases high - low
  {
    if high - low == 1 {
      assert Bisect(ok, low, high) == high;
    } else {
      var p := HalfRoundedEven(high + low);
      MidpointInside(low, high);
      if ok(p) {
        assert Bisect(ok, low, high) == Bisect(ok, low, p);
        BisectBoundary(ok, low, p);
      } else {
        assert Bisect(ok, low, high) == Bisect(ok, p, high);
        BisectBoundary(ok, p, high);
      }
    }
  }

  /** Unless the value is below the resolution, the count lies between 1 and the maximum. */
  lemma DigitsRange(value: real, reltol: real, resolution: Option<real>, round: (real, int) -> real)
    ensures BelowResolution(value, resolution) <==> Digits(value, reltol, resolution, round) == 0
    ensures Digits(value, reltol, resolution, round) <= MaxDigits
  {
  }

  /** The test passes for every count from its first pass on. */
  predicate Monotone(ok: nat -> bool)
  {
    forall p: nat, q: nat :: 1 <= p <= q <= MaxDigits && ok(p) ==> ok(q)
  }

  /** The least count from `p` on that passes the test, or the maximum when none does. */
  function LeastFrom(ok: nat -> bool, p: nat): (k: nat)
    requires 1 <= p <= MaxDigits
    ensures p <= k <= MaxDigits
    decreases MaxDigits - p
  {
    if p == MaxDigits || ok(p) then p else LeastFrom(ok, p + 1)
  }

  /** A boundary of a monotone test is the least count that passes. */
  lemma {:induction false} BoundaryIsLeast(ok: nat -> bool, p: nat, k: nat)
    requires Monotone(ok)
    requires 1 <= p <= k <= MaxDigits
    requires Boundary(ok, k)
    ensures LeastFrom(ok, p) == k
    decreases k - p
  {
    if p < k {
      var below: nat := k - 1;
      assert !ok(below);
      assert !ok(p);
      BoundaryIsLeast(ok, p + 1, k);
    }
  }

  /** For a monotone test, `significant_digits` finds the least count that passes, or the maximum. */
  lemma DigitsAreLeast(value: real, reltol: real, resolution: Option<real>, round: (real, int) -> real)
    requires !BelowResolution(value, resolution)
    requires Monotone(Test(value, reltol, round))
    ensures Digits(value, reltol, resolution, round) == LeastFrom(Test(value, reltol, round), 1)
  {
    var ok := Test(value, reltol, round);
    BisectBoundary(ok, 0, MaxDigits);
    BoundaryIsLeast(ok, 1, Bisect(ok, 0, MaxDigits));
  }

  /**
   * Rounding a value to its significant digits keeps its relative error
   * within the tolerance, unless the count is the maximum.
   */
  lemma RoundedWithinTolerance(value: real, reltol: real, resolution: Option<real>, round: (real, int) -> real)
    requires !BelowResolution(value, resolution)
    requires Digits(value, reltol, resolution, round) < MaxDigits
    ensures var v := round(value, Digits(value, reltol, resolution, round));
            v == value || Abs(value - v) / Max(Abs(value), Abs(v)) <= reltol
  {
    var ok := Test(value, reltol, round);
    var h := Bisect(ok, 0, MaxDigits);
    BisectBoundary(ok, 0, MaxDigits);
    assert ok(h);
    var v := round(value, h);
    assert !Exceeds(value, v, reltol);
    var d := Max(Abs(value), Abs(v));
    if d == 0.0 {
      assert value == 0.0 && v == 0.0;
    } else {
      assert Abs(value - v) / d <= reltol;
    }
  }

  // ---------------------------------------------------------------------
  // Arrays
  // ---------------------------------------------------------------------

  /** The first `n` counts are the digit counts of the first `n` values. */
  predicate CountsOf(values: seq<real>, counts: seq<int>, n: nat, reltol: real, resolution: Option<real>,
                     round: (real, int) -> real)
  {
    n <= |values| && n <= |counts|
    && forall j :: 0 <= j < n ==> counts[j] == Digits(values[j], reltol, resolution, round)
  }

  lemma CountsOfStep(values: seq<real>, counts: seq<int>, n: nat, reltol: real, resolution: Option<real>,
                     round: (real, int) -> real)
    requires CountsOf(values, counts, n, reltol, resolution, round) && n < |values| && n < |counts|
    ensures CountsOf(values, counts[n := Digits(values[n], reltol, resolution, round)], n + 1, reltol, resolution, round)
  {
  }

  /** `significant_array`: the digit count of every element, in a new array of the same length. */
  method SignificantArray(a: array<real>, reltol: real, resolution: Option<real>, round: (real, int) -> real)
    returns (result: array<int>)
    ensures fresh(result) && result.Length == a.Length
    ensures CountsOf(a[..], result[..], a.Length, reltol, resolution, round)
  {
    result := new int[a.Length];
    for i := 0 to a.Length
      invariant CountsOf(a[..], result[..], i, reltol, resolution, round)
    {
      var d := SignificantDigits(a[i], reltol, resolution, round);
      CountsOfStep(a[..], result[..], i, reltol, resolution, round);
      result[i] := d;
    }
  }

  /**
   * `round_array`: every element rounded to its own digit count, in a new
   * array of the same length; a digit array too short for the values fails
   * with an index error.
   */
  method RoundArray(a: array<real>, digits: array<int>, round: (real, int) -> real)
    returns (r: Option<array<real>>)
    ensures r.None? <==> digits.Length < a.Length
    ensures r.Some? ==> fresh(r.value) && r.value.Length == a.Length
    ensures r.Some? ==> forall i :: 0 <= i < a.Length ==> r.value[i] == round(a[i], digits[i])
  {
    var result := new real[a.Length];
    for i := 0 to a.Length
      invariant i <= digits.Length
      invariant forall j :: 0 <= j < i ==> result[j] == round(a[j], digits[j])
    {
      if i >= digits.Length {
        return None;
      }
      result[i] := round(a[i], digits[i]);
    }
    assert digits.Length >= a.Length;
    return Some(result);
  }
}
