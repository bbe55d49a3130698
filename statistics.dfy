/**
 * The descriptive statistics every tracker reports: sums, means, extremes
 * and percentages over recorded measurements, with the zero fall-backs the
 * trackers use for empty records.
 */
module Statistics {

  function Sum(s: seq<real>): real
    decreases |s|
  {
    if s == [] then 0.0 else Sum(s[..|s| - 1]) + s[|s| - 1]
  }

  /** The smallest element, as `min` returns it. */
  function Min(s: seq<real>): (m: real)
    requires |s| > 0
    ensures m in s
    ensures forall i :: 0 <= i < |s| ==> m <= s[i]
    decreases |s|
  {
    if |s| == 1 then s[0]
    else
      var rest := Min(s[..|s| - 1]);
      if s[|s| - 1] < rest then s[|s| - 1] else rest
  }

  /** The largest element, as `max` returns it. */
  function Max(s: seq<real>): (m: real)
    requires |s| > 0
    ensures m in s
    ensures forall i :: 0 <= i < |s| ==> s[i] <= m
    decreases |s|
  {
    if |s| == 1 then s[0]
    else
      var rest := Max(s[..|s| - 1]);
      if s[|s| - 1] > rest then s[|s| - 1] else rest
  }

  /** Elements all lie within [lo, hi]. */
  predicate Within(s: seq<real>, lo: real, hi: real) {
    forall i :: 0 <= i < |s| ==> lo <= s[i] <= hi
  }

  /** A sum of values in [lo, hi] lies between |s|*lo and |s|*hi. */
  lemma {:induction false} SumBounds(s: seq<real>, lo: real, hi: real)
    requires Within(s, lo, hi)
    ensures |s| as real * lo <= Sum(s) <= |s| as real * hi
    decreases |s|
  {
    if s != [] {
      var prefix := s[..|s| - 1];
      assert Within(prefix, lo, hi);
      SumBounds(prefix, lo, hi);
      assert |s| as real * lo == |prefix| as real * lo + lo;
      assert |s| as real * hi == |prefix| as real * hi + hi;
    }
  }

  lemma {:induction false} SumConcat(a: seq<real>, b: seq<real>)
    ensures Sum(a + b) == Sum(a) + Sum(b)
    decreases |b|
  {
    if b == [] {
      assert a + b == a;
    } else {
      var b' := b[..|b| - 1];
      assert (a + b)[..|a + b| - 1] == a + b';
      SumConcat(a, b');
    }
  }

  lemma {:induction false} SumNonNegative(s: seq<real>)
    requires forall i :: 0 <= i < |s| ==> s[i] >= 0.0
    ensures Sum(s) >= 0.0
    decreases |s|
  {
    if s != [] {
      SumNonNegative(s[..|s| - 1]);
    }
  }

  /** The arithmetic mean, `sum(s) / len(s)`, or 0 for an empty record. */
  function Mean(s: seq<real>): (m: real)
    ensures s == [] ==> m == 0.0
    ensures s != [] ==> Min(s) <= m <= Max(s)
  {
    if s == [] then 0.0
    else
      MeanBounds(s);
      Sum(s) / |s| as real
  }

  lemma MeanBounds(s: seq<real>)
    requires s != []
    ensures Min(s) <= Sum(s) / |s| as real <= Max(s)
  {
    MeanWithin(s, Min(s), Max(s));
  }

  lemma MeanWithin(s: seq<real>, lo: real, hi: real)
    requires s != [] && Within(s, lo, hi)
    ensures lo <= Sum(s) / |s| as real <= hi
  {
    SumBounds(s, lo, hi);
    DivideBounds(Sum(s), |s| as real, lo, hi);
  }

  lemma DivideBounds(x: real, n: real, lo: real, hi: real)
    requires n > 0.0 && n * lo <= x <= n * hi
    ensures lo <= x / n <= hi
  {
    var q := x / n;
    assert x == n * q;
    MulCancel(n, lo, q);
    MulCancel(n, q, hi);
  }

  lemma MulCancel(n: real, a: real, b: real)
    requires n > 0.0 && n * a <= n * b
    ensures a <= b
  {
    assert n * (b - a) == n * b - n * a;
  }

  /**
   * `part / whole * 100`, or 0 when there is nothing to count; with the part
   * at most the whole this is a percentage.
   */
  function Percent(part: nat, whole: nat): (r: real)
    ensures part <= whole ==> 0.0 <= r <= 100.0
    ensures r == 0.0 <==> part == 0 || whole == 0
    ensures part <= whole ==> (r == 100.0 <==> whole > 0 && part == whole)
  {
    if whole == 0 then 0.0
    else
      PercentBounds(part, whole);
      part as real / whole as real * 100.0
  }

  lemma PercentBounds(part: nat, whole: nat)
    requires whole > 0
    ensures part as real / whole as real * 100.0 == 0.0 <==> part == 0
    ensures part <= whole ==> 0.0 <= part as real / whole as real * 100.0 <= 100.0
    ensures part <= whole ==> (part as real / whole as real * 100.0 == 100.0 <==> part == whole)
  {
    var q := part as real / whole as real;
    assert part as real == q * whole as real;
    if part <= whole {
      DivideBounds(part as real, whole as real, 0.0, 1.0);
    }
  }

  /** Comparing quotients by cross-multiplying. */
  lemma CrossMultiply(a: real, b: real, c: real, d: real)
    requires b > 0.0 && d > 0.0 && a * d <= c * b
    ensures a / b <= c / d
  {
    var q1, q2 := a / b, c / d;
    assert a == q1 * b;
    assert c == q2 * d;
    assert a * d == (b * d) * q1;
    assert c * b == (b * d) * q2;
    MulCancel(b * d, q1, q2);
  }

  /** Counting one more success never lowers a success rate. */
  lemma PercentHit(part: nat, whole: nat)
    requires part <= whole
    ensures Percent(part, whole) <= Percent(part + 1, whole + 1)
  {
    if whole > 0 {
      var p, w := part as real, whole as real;
      assert p * (w + 1.0) <= (p + 1.0) * w;
      CrossMultiply(p, w, p + 1.0, w + 1.0);
    }
  }

  /** Counting one more failure never raises a success rate. */
  lemma PercentMiss(part: nat, whole: nat)
    requires part <= whole
    ensures Percent(part, whole + 1) <= Percent(part, whole)
  {
    if whole > 0 {
      var p, w := part as real, whole as real;
      assert p * w <= p * (w + 1.0);
      CrossMultiply(p, w + 1.0, p, w);
    }
  }

  /** The average/min/max/count group the trackers report. */
  datatype Summary = Summary(average: real, minimum: real, maximum: real, count: nat)

  /** The group of a record, all zeros when the record is empty. */
  function Summarize(s: seq<real>): (r: Summary)
    ensures r.count == |s|
    ensures s == [] ==> r == Summary(0.0, 0.0, 0.0, 0)
    ensures s != [] ==> r.minimum in s && r.maximum in s
    ensures s != [] ==> r.minimum <= r.average <= r.maximum
    ensures forall i :: 0 <= i < |s| ==> r.minimum <= s[i] <= r.maximum
  {
    if s == [] then Summary(0.0, 0.0, 0.0, 0)
    else Summary(Mean(s), Min(s), Max(s), |s|)
  }

  /** How many of the flags are set. */
  function Count(bs: seq<bool>): (n: nat)
    ensures n <= |bs|
  {
    if bs == [] then 0 else Count(bs[..|bs| - 1]) + (if bs[|bs| - 1] then 1 else 0)
  }

  /** Every flag is set exactly when the count reaches the length, and none when it is 0. */
  lemma {:induction false} CountExtremes(bs: seq<bool>)
    ensures Count(bs) == |bs| <==> forall i :: 0 <= i < |bs| ==> bs[i]
    ensures Count(bs) == 0 <==> forall i :: 0 <= i < |bs| ==> !bs[i]
    decreases |bs|
  {
    if bs != [] {
      var p := bs[..|bs| - 1];
      CountExtremes(p);
      assert forall i :: 0 <= i < |p| ==> p[i] == bs[i];
    }
  }
}
