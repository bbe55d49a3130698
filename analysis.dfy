/**
 * The comparison table of the analysis script: per-gesture rows of a saved
 * report, their totals, the best and worst gesture by accuracy, and the
 * pooled precision, recall and F1 score.
 */
module Analysis {
  import opened Wrappers
  import opened Statistics

  /** One gesture's entry of a saved report, in the report's order. */
  datatype GestureRow = GestureRow(
    name: string, detected: nat, truePositive: nat, falsePositive: nat, falseNegative: nat, accuracy: real)

  datatype Totals = Totals(detected: nat, truePositive: nat, falsePositive: nat, falseNegative: nat)

  /** The column sums of `rows`. */
  function TotalsOf(rows: seq<GestureRow>): Totals
    decreases |rows|
  {
    if rows == [] then Totals(0, 0, 0, 0)
    else
      var t := TotalsOf(rows[..|rows| - 1]);
      var g := rows[|rows| - 1];
      Totals(t.detected + g.detected, t.truePositive + g.truePositive,
             t.falsePositive + g.falsePositive, t.falseNegative + g.falseNegative)
  }

  /** The report has no false positives exactly when no gesture has any; likewise false negatives. */
  lemma {:induction false} TotalsZeroIff(rows: seq<GestureRow>)
    ensures TotalsOf(rows).falsePositive == 0 <==> forall i :: 0 <= i < |rows| ==> rows[i].falsePositive == 0
    ensures TotalsOf(rows).falseNegative == 0 <==> forall i :: 0 <= i < |rows| ==> rows[i].falseNegative == 0
    ensures TotalsOf(rows).truePositive == 0 <==> forall i :: 0 <= i < |rows| ==> rows[i].truePositive == 0
    decreases |rows|
  {
    if rows != [] {
      var p := rows[..|rows| - 1];
      TotalsZeroIff(p);
      assert forall i :: 0 <= i < |p| ==> p[i] == rows[i];
    }
  }

  /** Totals add up over a split of the rows. */
  lemma {:induction false} TotalsOfConcat(a: seq<GestureRow>, b: seq<GestureRow>)
    ensures var t, u, v := TotalsOf(a + b), TotalsOf(a), TotalsOf(b);
      t == Totals(u.detected + v.detected, u.truePositive + v.truePositive,
                  u.falsePositive + v.falsePositive, u.falseNegative + v.falseNegative)
    decreases |b|
  {
    if b == [] {
      assert a + b == a;
    } else {
      var b' := b[..|b| - 1];
      assert (a + b)[..|a + b| - 1] == a + b';
      TotalsOfConcat(a, b');
    }
  }

  /**
   * The first row with the greatest accuracy, as `max` with a key picks it:
   * a later row replaces the current choice only when strictly better.
   */
  function BestIndex(rows: seq<GestureRow>): (b: nat)
    requires rows != []
    ensures b < |rows|
    ensures forall j :: 0 <= j < |rows| ==> rows[j].accuracy <= rows[b].accuracy
    ensures forall j :: 0 <= j < b ==> rows[j].accuracy < rows[b].accuracy
    decreases |rows|
  {
    if |rows| == 1 then 0
    else
      var b := BestIndex(rows[..|rows| - 1]);
      if rows[|rows| - 1].accuracy > rows[b].accuracy then |rows| - 1 else b
  }

  /** The first row with the least accuracy, as `min` with a key picks it. */
  function WorstIndex(rows: seq<GestureRow>): (w: nat)
    requires rows != []
    ensures w < |rows|
    ensures forall j :: 0 <= j < |rows| ==> rows[w].accuracy <= rows[j].accuracy
    ensures forall j :: 0 <= j < w ==> rows[w].accuracy < rows[j].accuracy
    decreases |rows|
  {
    if |rows| == 1 then 0
    else
      var w := WorstIndex(rows[..|rows| - 1]);
      if rows[|rows| - 1].accuracy < rows[w].accuracy then |rows| - 1 else w
  }

  /** Pooled precision, `100 * tp / (tp + fp)`, 0 without detections. */
  function Precision(t: Totals): (p: real)
    ensures 0.0 <= p <= 100.0
    ensures p == 0.0 <==> t.truePositive == 0
    ensures p == 100.0 <==> t.truePositive > 0 && t.falsePositive == 0
  {
    Percent(t.truePositive, t.truePositive + t.falsePositive)
  }

  /** Pooled recall, `100 * tp / (tp + fn)`, 0 without ground truth. */
  function Recall(t: Totals): (r: real)
    ensures 0.0 <= r <= 100.0
    ensures r == 0.0 <==> t.truePositive == 0
    ensures r == 100.0 <==> t.truePositive > 0 && t.falseNegative == 0
  {
    Percent(t.truePositive, t.truePositive + t.falseNegative)
  }

  /**
   * The F1 score, the harmonic mean `2pr / (p + r)`, 0 when both are 0. For
   * non-negative inputs it lies between the smaller and the larger.
   */
  function F1(p: real, r: real): (f: real)
    ensures p >= 0.0 && r >= 0.0 ==> f >= 0.0 && (f == 0.0 <==> p == 0.0 || r == 0.0)
    ensures p >= 0.0 && r >= 0.0 && p <= r ==> p <= f <= r
    ensures p >= 0.0 && r >= 0.0 && r <= p ==> r <= f <= p
  {
    if p + r > 0.0 then
      F1Bounds(p, r);
      2.0 * (p * r) / (p + r)
    else 0.0
  }

  lemma F1Bounds(p: real, r: real)
    requires p + r > 0.0
    ensures var f := 2.0 * (p * r) / (p + r);
      p >= 0.0 && r >= 0.0 ==>
        && f >= 0.0 && (f == 0.0 <==> p == 0.0 || r == 0.0)
        && (p <= r ==> p <= f <= r) && (r <= p ==> r <= f <= p)
  {
    var n := p + r;
    var x := 2.0 * (p * r);
    if p >= 0.0 && r >= 0.0 {
      if p <= r {
        assert p * p <= p * r <= r * r;
        DivideBounds(x, n, p, r);
      } else {
        assert r * r <= p * r <= p * p;
        DivideBounds(x, n, r, p);
      }
    }
  }

  /** The figures of the comparison table below the rows. */
  datatype Comparison = Comparison(
    totals: Totals,
    bestGesture: string, bestAccuracy: real,
    worstGesture: string, worstAccuracy: real,
    precision: real, recall: real, f1Score: real)

  /**
   * `create_comparison_table_text` without its text: the totals are summed
   * row by row; the best and the worst gesture are the first rows with the
   * greatest and the least accuracy; a report without gestures has no best
   * gesture, which the script fails on, and gives none.
   */
  method CreateComparisonTable(rows: seq<GestureRow>) returns (r: Option<Comparison>)
    ensures r.None? <==> rows == []
    ensures r.Some? ==>
      && r.value.totals == TotalsOf(rows)
      && r.value.bestGesture == rows[BestIndex(rows)].name && r.value.bestAccuracy == rows[BestIndex(rows)].accuracy
      && r.value.worstGesture == rows[WorstIndex(rows)].name && r.value.worstAccuracy == rows[WorstIndex(rows)].accuracy
      && (exists i :: 0 <= i < |rows| && rows[i].name == r.value.bestGesture && rows[i].accuracy == r.value.bestAccuracy
                      && forall j :: 0 <= j < i ==> rows[j].accuracy < r.value.bestAccuracy)
      && (exists i :: 0 <= i < |rows| && rows[i].name == r.value.worstGesture && rows[i].accuracy == r.value.worstAccuracy
                      && forall j :: 0 <= j < i ==> r.value.worstAccuracy < rows[j].accuracy)
      && (forall i :: 0 <= i < |rows| ==> r.value.worstAccuracy <= rows[i].accuracy <= r.value.bestAccuracy)
      && r.value.precision == Precision(TotalsOf(rows)) && r.value.recall == Recall(TotalsOf(rows))
      && r.value.f1Score == F1(r.value.precision, r.value.recall)
      && 0.0 <= r.value.f1Score <= 100.0
  {
    var totalDetected: nat, totalTp: nat, totalFp: nat, totalFn: nat := 0, 0, 0, 0;
    for i := 0 to |rows|
      invariant Totals(totalDetected, totalTp, totalFp, totalFn) == TotalsOf(rows[..i])
    {
      assert rows[..i + 1][..i] == rows[..i];
      totalDetected := totalDetected + rows[i].detected;
      totalTp := totalTp + rows[i].truePositive;
      totalFp := totalFp + rows[i].falsePositive;
      totalFn := totalFn + rows[i].falseNegative;
    }
    assert rows[..|rows|] == rows;
    if rows == [] {
      return None;
    }
    var best := rows[BestIndex(rows)];
    var worst := rows[WorstIndex(rows)];
    var totals := Totals(totalDetected, totalTp, totalFp, totalFn);
    var precision := Precision(totals);
    var recall := Recall(totals);
    var f1 := F1(precision, recall);
    r := Some(Comparison(totals, best.name, best.accuracy, worst.name, worst.accuracy, precision, recall, f1));
  }

  /**
   * A perfect pooled F1 score needs a true positive and no false positive
   * or false negative in any gesture, and the converse holds.
   */
  lemma PerfectF1Iff(rows: seq<GestureRow>)
    ensures var t := TotalsOf(rows);
      F1(Precision(t), Recall(t)) == 100.0 <==>
        && (exists i :: 0 <= i < |rows| && rows[i].truePositive > 0)
        && (forall i :: 0 <= i < |rows| ==> rows[i].falsePositive == 0 && rows[i].falseNegative == 0)
  {
    TotalsZeroIff(rows);
    var t := TotalsOf(rows);
    var p, r := Precision(t), Recall(t);
    if F1(p, r) == 100.0 {
      if p < 100.0 || r < 100.0 {
        F1BelowMaxWhenUnequal(p, r);
      }
    }
  }

  lemma F1BelowMaxWhenUnequal(p: real, r: real)
    requires 0.0 <= p <= 100.0 && 0.0 <= r <= 100.0 && (p < 100.0 || r < 100.0)
    ensures F1(p, r) < 100.0
  {
    if p + r > 0.0 {
      if r == 100.0 {
        // 2p * 100 / (p + 100) < 100 exactly when p < 100.
        DivideStrict(2.0 * (p * 100.0), p + 100.0, 100.0);
      } else if p == 100.0 {
        DivideStrict(2.0 * (100.0 * r), 100.0 + r, 100.0);
      }
    }
  }

  lemma DivideStrict(x: real, n: real, hi: real)
    requires n > 0.0 && x < n * hi
    ensures x / n < hi
  {
    var q := x / n;
    assert x == n * q;
    assert n * (hi - q) > 0.0;
  }
}
