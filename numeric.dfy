/**
 * Exact-real models of the Python and numpy primitives the EMG analysis uses:
 * `abs`, `int()` on a float, `round()`, slicing with `[a:b]`, and the numpy
 * reductions `mean`, `min`, `max` and the population variance behind `std`.
 * `None` stands for numpy's NaN (the mean of an empty list).
 */
module Numeric {

  datatype Option<+T> = None | Some(value: T)

  function MinInt(a: int, b: int): int { if a <= b then a else b }

  function MaxInt(a: int, b: int): int { if a <= b then b else a }

  function Abs(x: real): (r: real)
    ensures 0.0 <= r && (r == x || r == -x)
  {
    if x < 0.0 then -x else x
  }

  /** Python's `int(x)` on a float: truncation toward zero. */
  function Trunc(x: real): int
  {
    if 0.0 <= x then x.Floor else -((-x).Floor)
  }

  /** Truncation moves a value toward zero by less than one. */
  lemma TruncBounds(x: real)
    ensures 0.0 <= x ==> Trunc(x) as real <= x < Trunc(x) as real + 1.0
    ensures x < 0.0 ==> Trunc(x) as real - 1.0 < x <= Trunc(x) as real
  {
  }

  lemma TruncMonotone(x: real, y: real)
    requires x <= y
    ensures Trunc(x) <= Trunc(y)
  {
    TruncBounds(x);
    TruncBounds(y);
  }

  /** Python's `round(x)` on a float: nearest integer, ties to the even one. */
  function RoundHalfEven(x: real): int
  {
    var f := x.Floor;
    var d := x - f as real;
    if d < 0.5 then f
    else if d > 0.5 then f + 1
    else if f % 2 == 0 then f
    else f + 1
  }

  /** Rounding moves a value by at most one half, and a tie goes to the even
      neighbour. */
  lemma RoundHalfEvenBounds(x: real)
    ensures x - 0.5 <= RoundHalfEven(x) as real <= x + 0.5
    ensures (RoundHalfEven(x) as real == x - 0.5 || RoundHalfEven(x) as real == x + 0.5) ==> RoundHalfEven(x) % 2 == 0
  {
  }

  lemma RoundOfInteger(n: int)
    ensures RoundHalfEven(n as real) == n
  {
  }

  /** Where a Python slice bound `i` lands in a sequence of length `n`:
      negative bounds count from the end, and both sides are clamped. */
  function ClampIndex(i: int, n: nat): (r: nat)
    ensures r <= n
    ensures 0 <= i ==> r == MinInt(i, n)
    ensures i < 0 ==> r == MaxInt(i + n, 0)
  {
    if i < 0 then (if i + n < 0 then 0 else i + n)
    else if i < n then i
    else n
  }

  /** Python's `s[start:end]` (step 1). */
  function PySlice<T>(s: seq<T>, start: int, end: int): (r: seq<T>)
    ensures |r| <= |s|
    ensures |r| == MaxInt(ClampIndex(end, |s|) - ClampIndex(start, |s|), 0)
    ensures forall k :: 0 <= k < |r| ==> ClampIndex(start, |s|) + k < |s| && r[k] == s[ClampIndex(start, |s|) + k]
    ensures 0 <= start <= end ==> |r| == MinInt(end, |s|) - MinInt(start, |s|)
    ensures 0 <= end <= start ==> r == []
  {
    var lo := ClampIndex(start, |s|);
    var hi := ClampIndex(end, |s|);
    if lo < hi then s[lo..hi] else []
  }

  function Sum(xs: seq<real>): real
  {
    if xs == [] then 0.0 else xs[0] + Sum(xs[1..])
  }

  /** Python's `min` of a non-empty list. */
  function Minimum(xs: seq<real>): (m: real)
    requires |xs| > 0
    ensures forall i :: 0 <= i < |xs| ==> m <= xs[i]
    ensures exists i :: 0 <= i < |xs| && xs[i] == m
  {
    if |xs| == 1 then xs[0]
    else
      var t := Minimum(xs[1..]);
      assert forall i :: 1 <= i < |xs| ==> xs[1..][i - 1] == xs[i];
      if xs[0] <= t then xs[0] else t
  }

  /** Python's `max` of a non-empty list. */
  function Maximum(xs: seq<real>): (m: real)
    requires |xs| > 0
    ensures forall i :: 0 <= i < |xs| ==> xs[i] <= m
    ensures exists i :: 0 <= i < |xs| && xs[i] == m
  {
    if |xs| == 1 then xs[0]
    else
      var t := Maximum(xs[1..]);
      assert forall i :: 1 <= i < |xs| ==> xs[1..][i - 1] == xs[i];
      if t <= xs[0] then xs[0] else t
  }

  lemma {:induction false} SumLowerBound(xs: seq<real>, lo: real)
    requires forall i :: 0 <= i < |xs| ==> lo <= xs[i]
    ensures |xs| as real * lo <= Sum(xs)
  {
    if xs != [] {
      assert forall i :: 0 <= i < |xs[1..]| ==> xs[1..][i] == xs[i + 1];
      SumLowerBound(xs[1..], lo);
      assert |xs| as real * lo == lo + (|xs| - 1) as real * lo;
    }
  }

  lemma {:induction false} SumUpperBound(xs: seq<real>, hi: real)
    requires forall i :: 0 <= i < |xs| ==> xs[i] <= hi
    ensures Sum(xs) <= |xs| as real * hi
  {
    if xs != [] {
      assert forall i :: 0 <= i < |xs[1..]| ==> xs[1..][i] == xs[i + 1];
      SumUpperBound(xs[1..], hi);
      assert |xs| as real * hi == hi + (|xs| - 1) as real * hi;
    }
  }

  /** The arithmetic mean of a non-empty list. */
  function Average(xs: seq<real>): real
    requires |xs| > 0
  {
    Sum(xs) / |xs| as real
  }

  /** numpy's `mean`: NaN (here `None`) for an empty list. */
  function Mean(xs: seq<real>): (r: Option<real>)
    ensures r.Some? <==> |xs| > 0
  {
    if |xs| == 0 then None else Some(Average(xs))
  }

  lemma AverageWithin(xs: seq<real>, lo: real, hi: real)
    requires |xs| > 0
    requires forall i :: 0 <= i < |xs| ==> lo <= xs[i] <= hi
    ensures lo <= Average(xs) <= hi
  {
    SumLowerBound(xs, lo);
    SumUpperBound(xs, hi);
    var n := |xs| as real;
    assert Average(xs) * n == Sum(xs);
    assert (Average(xs) - lo) * n >= 0.0;
    assert (hi - Average(xs)) * n >= 0.0;
  }

  /** The mean lies between the smallest and the largest element. */
  lemma AverageBetweenExtremes(xs: seq<real>)
    requires |xs| > 0
    ensures Minimum(xs) <= Average(xs) <= Maximum(xs)
  {
    AverageWithin(xs, Minimum(xs), Maximum(xs));
  }

  function SquaredDeviations(xs: seq<real>, mu: real): (r: seq<real>)
    ensures |r| == |xs|
    ensures forall i :: 0 <= i < |r| ==> r[i] == (xs[i] - mu) * (xs[i] - mu)
  {
    if xs == [] then [] else [(xs[0] - mu) * (xs[0] - mu)] + SquaredDeviations(xs[1..], mu)
  }

  /** Population variance (divisor N), the square of numpy's default `std`. */
  function PopulationVariance(xs: seq<real>): real
    requires |xs| > 0
  {
    Average(SquaredDeviations(xs, Average(xs)))
  }

  lemma VarianceNonNegative(xs: seq<real>)
    requires |xs| > 0
    ensures 0.0 <= PopulationVariance(xs)
  {
    var d := SquaredDeviations(xs, Average(xs));
    forall i | 0 <= i < |d| ensures 0.0 <= d[i] {
      var e := xs[i] - Average(xs);
      assert d[i] == e * e;
    }
    AverageWithin(d, 0.0, Maximum(d));
  }

  /** A list whose elements are all equal has that value as mean and no spread. */
  lemma {:induction false} ConstantListMoments(xs: seq<real>, v: real)
    requires |xs| > 0
    requires forall i :: 0 <= i < |xs| ==> xs[i] == v
    ensures Average(xs) == v
    ensures PopulationVariance(xs) == 0.0
  {
    AverageWithin(xs, v, v);
    var d := SquaredDeviations(xs, v);
    forall i | 0 <= i < |d| ensures d[i] == 0.0 {
      assert xs[i] - v == 0.0;
      assert d[i] == (xs[i] - v) * (xs[i] - v);
    }
    AverageWithin(d, 0.0, 0.0);
  }
}
