/**
 * Cursor jitter: the population standard deviation of the distances the
 * cursor moved between consecutive recorded samples. Fewer than three
 * samples count as no jitter. The Euclidean distances and the final square
 * root are supplied by the caller and tied to the exact squares they must
 * satisfy, so the model works with the variance.
 */
module Jitter {
  import opened Geometry
  import opened Statistics

  /** `ls[i]` is the length of the step from `ps[i]` to `ps[i + 1]`. */
  predicate ConsecutiveLengths(ps: seq<Point>, ls: seq<real>) {
    && |ls| == (if ps == [] then 0 else |ps| - 1)
    && forall i :: 0 <= i < |ls| ==> IsLength(ls[i], ps[i], ps[i + 1])
  }

  /** The sum of the squared deviations of `ls` from `m`. */
  function SumOfSquares(ls: seq<real>, m: real): real
    decreases |ls|
  {
    if ls == [] then 0.0
    else SumOfSquares(ls[..|ls| - 1], m) + Square(ls[|ls| - 1] - m)
  }

  /** `x ** 2`. */
  function Square(x: real): real {
    x * x
  }

  /** Population variance: mean squared deviation from the mean. */
  function Variance(ls: seq<real>): real {
    if ls == [] then 0.0 else SumOfSquares(ls, Average(ls)) / |ls| as real
  }

  /** The mean step length, `sum / len`. */
  function Average(ls: seq<real>): real
    requires ls != []
  {
    Sum(ls) / |ls| as real
  }

  /** The square of the jitter of a run of samples with step lengths `ls`. */
  function JitterSquared(ps: seq<Point>, ls: seq<real>): real {
    if |ps| < 3 then 0.0 else Variance(ls)
  }

  /** `j` is the jitter: the non-negative square root of `JitterSquared`. */
  predicate IsJitter(j: real, ps: seq<Point>, ls: seq<real>) {
    j >= 0.0 && Square(j) == JitterSquared(ps, ls)
  }

  /** Every step had the same length. */
  predicate Steady(ls: seq<real>) {
    forall i :: 0 <= i < |ls| ==> ls[i] == ls[0]
  }

  /**
   * The jitter computation: collect the step lengths, take their mean, then
   * the mean squared deviation.
   */
  method CalculateJitterVariance(ps: seq<Point>, ls: seq<real>) returns (v: real)
    requires ConsecutiveLengths(ps, ls)
    ensures v == JitterSquared(ps, ls)
    ensures v >= 0.0
    ensures |ps| < 3 ==> v == 0.0
  {
    if |ps| < 3 {
      return 0.0;
    }
    var distances: seq<real> := [];
    var total := 0.0;
    var i := 1;
    while i < |ps|
      invariant 1 <= i <= |ps|
      invariant distances == ls[..i - 1]
      invariant total == Sum(distances)
    {
      var d := ls[i - 1];
      assert (distances + [d])[..|distances|] == distances;
      distances := distances + [d];
      total := total + d;
      i := i + 1;
    }
    assert distances == ls;
    var meanDist := total / |distances| as real;
    var squares := 0.0;
    var k := 0;
    while k < |distances|
      invariant 0 <= k <= |distances|
      invariant squares == SumOfSquares(distances[..k], meanDist)
    {
      var dev := distances[k] - meanDist;
      assert distances[..k + 1][..k] == distances[..k];
      squares := squares + Square(dev);
      k := k + 1;
    }
    assert distances[..k] == distances;
    v := squares / |distances| as real;
    VarianceNonNegative(ls);
  }

  lemma VarianceNonNegative(ls: seq<real>)
    ensures Variance(ls) >= 0.0
  {
    if ls != [] {
      SumOfSquaresNonNegative(ls, Average(ls));
      DivideSign(SumOfSquares(ls, Average(ls)), |ls| as real);
    }
  }

  /** Dividing by a positive count keeps the sign and keeps zero. */
  lemma DivideSign(x: real, n: real)
    requires n > 0.0
    ensures x >= 0.0 ==> x / n >= 0.0
    ensures x / n == 0.0 <==> x == 0.0
  {
    var q := x / n;
    assert x == q * n;
    if x >= 0.0 {
      MulCancel(n, 0.0, q);
    }
  }

  lemma {:induction false} SumOfSquaresNonNegative(ls: seq<real>, m: real)
    ensures SumOfSquares(ls, m) >= 0.0
    decreases |ls|
  {
    if ls != [] {
      SumOfSquaresNonNegative(ls[..|ls| - 1], m);
      SquareSign(ls[|ls| - 1] - m);
    }
  }

  /** The squared deviations sum to zero exactly when every value equals `m`. */
  lemma {:induction false} SumOfSquaresZeroIff(ls: seq<real>, m: real)
    ensures SumOfSquares(ls, m) == 0.0 <==> forall i :: 0 <= i < |ls| ==> ls[i] == m
    decreases |ls|
  {
    if ls != [] {
      var p := ls[..|ls| - 1];
      SumOfSquaresZeroIff(p, m);
      SumOfSquaresNonNegative(p, m);
      SquareSign(ls[|ls| - 1] - m);
      assert forall i :: 0 <= i < |p| ==> p[i] == ls[i];
    }
  }

  /** The mean of a steady run is its common step length. */
  lemma {:induction false} SteadySum(ls: seq<real>, c: real)
    requires forall i :: 0 <= i < |ls| ==> ls[i] == c
    ensures Sum(ls) == |ls| as real * c
    decreases |ls|
  {
    if ls != [] {
      SteadySum(ls[..|ls| - 1], c);
    }
  }

  /**
   * The variance vanishes exactly when every step had the same length: a
   * cursor moving at a constant rate has no jitter.
   */
  lemma VarianceZeroIffSteady(ls: seq<real>)
    ensures Variance(ls) == 0.0 <==> Steady(ls)
  {
    if ls != [] {
      var n := |ls| as real;
      var m := Average(ls);
      DivideSign(SumOfSquares(ls, m), n);
      SumOfSquaresZeroIff(ls, m);
      if Steady(ls) {
        SteadySum(ls, ls[0]);
        CountTimes(n, ls[0]);
      }
    }
  }

  lemma CountTimes(n: real, c: real)
    requires n > 0.0
    ensures (n * c) / n == c
  {
  }

  /** A square is never negative, and is zero only at zero. */
  lemma SquareSign(a: real)
    ensures Square(a) >= 0.0
    ensures a != 0.0 ==> Square(a) > 0.0
    ensures a == 0.0 ==> Square(a) == 0.0
  {
    if a != 0.0 {
      calc {
        Square(a);
        a * a;
      >
        0.0;
      }
    }
  }

  /**
   * The jitter is zero exactly when there are fewer than three samples or the
   * cursor moved the same distance at every step.
   */
  lemma JitterZeroIff(j: real, ps: seq<Point>, ls: seq<real>)
    requires IsJitter(j, ps, ls)
    ensures j == 0.0 <==> |ps| < 3 || Steady(ls)
  {
    VarianceZeroIffSteady(ls);
    SquareSign(j);
  }
}
