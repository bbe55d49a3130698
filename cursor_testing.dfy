/**
 * The cursor-control measurements of the cursor-testing variant: precision
 * against a 3x3 grid of targets, smoothness over a sliding window of the
 * last 100 cursor samples, and timed speed runs in three categories.
 */
module CursorTesting {
  import opened Geometry
  import opened Statistics
  import opened Jitter

  /**
   * The target after a recorded precision test, back to the first after the
   * last; both cursor-testing scripts advance this way.
   */
  function NextTarget(index: nat, count: nat): (next: nat)
    ensures index < count ==> next < count
    ensures index + 1 < count ==> next == index + 1
    ensures index + 1 >= count ==> next == 0
  {
    if index + 1 >= count then 0 else index + 1
  }

  /** A precision test succeeds below this deviation, in pixels. */
  const SuccessDeviation: real := 50.0
  /** The smoothness window keeps this many of the latest samples. */
  const SmoothnessWindow: nat := 100

  datatype PrecisionHit = PrecisionHit(target: Point, cursor: Point, deviation: real)
  datatype Sample = Sample(position: Point, time: real)

  /** The speed-test categories: slow, normal and fast. */
  datatype Speed = Slow | Normal | Fast
  datatype SpeedRecord = SpeedRecord(category: Speed, distance: real, timeMs: real, speed: real)

  /** `distance / time * 1000` in pixels per second, 0 for a zero or negative time. */
  function SpeedOf(distance: real, timeMs: real): (v: real)
    ensures timeMs <= 0.0 ==> v == 0.0
    ensures timeMs > 0.0 && distance >= 0.0 ==> v >= 0.0
    ensures timeMs > 0.0 ==> v * timeMs == distance * 1000.0
  {
    if timeMs > 0.0 then distance / timeMs * 1000.0 else 0.0
  }

  /** The window after appending one sample: the oldest goes once it is full. */
  function Window(s: seq<Sample>): seq<Sample> {
    if |s| > SmoothnessWindow then s[1..] else s
  }

  /** The window after feeding every sample of `all`, starting empty. */
  function WindowAfter(all: seq<Sample>): seq<Sample>
    decreases |all|
  {
    if all == [] then [] else Window(WindowAfter(all[..|all| - 1]) + [all[|all| - 1]])
  }

  /** The window always holds exactly the latest 100 samples, in order. */
  lemma {:induction false} WindowKeepsLatest(all: seq<Sample>)
    ensures |all| <= SmoothnessWindow ==> WindowAfter(all) == all
    ensures |all| > SmoothnessWindow ==> WindowAfter(all) == all[|all| - SmoothnessWindow..]
    decreases |all|
  {
    if all != [] {
      var p := all[..|all| - 1];
      var x := all[|all| - 1];
      assert all == p + [x];
      WindowKeepsLatest(p);
      if |p| >= SmoothnessWindow {
        LatestShift(p, x);
      }
    }
  }

  /** Dropping the oldest of the latest 100 after an append keeps the latest 100. */
  lemma LatestShift(p: seq<Sample>, x: Sample)
    requires |p| >= SmoothnessWindow
    ensures (p[|p| - SmoothnessWindow..] + [x])[1..] == (p + [x])[|p| + 1 - SmoothnessWindow..]
  {
    var w := p[|p| - SmoothnessWindow..];
    var lhs, rhs := (w + [x])[1..], (p + [x])[|p| + 1 - SmoothnessWindow..];
    assert |lhs| == |rhs| == SmoothnessWindow;
    forall i | 0 <= i < SmoothnessWindow ensures lhs[i] == rhs[i] {
      if i < SmoothnessWindow - 1 {
        assert lhs[i] == w[i + 1] == p[|p| - SmoothnessWindow + i + 1];
      }
    }
  }

  function Positions(s: seq<Sample>): (ps: seq<Point>)
    ensures |ps| == |s| && forall i :: 0 <= i < |s| ==> ps[i] == s[i].position
  {
    seq(|s|, i requires 0 <= i < |s| => s[i].position)
  }

  function Deviations(hits: seq<PrecisionHit>): (ds: seq<real>)
    ensures |ds| == |hits| && forall i :: 0 <= i < |hits| ==> ds[i] == hits[i].deviation
  {
    seq(|hits|, i requires 0 <= i < |hits| => hits[i].deviation)
  }

  /** How many deviations are below the success threshold. */
  function Successes(ds: seq<real>): (n: nat)
    ensures n <= |ds|
  {
    if ds == [] then 0
    else Successes(ds[..|ds| - 1]) + (if ds[|ds| - 1] < SuccessDeviation then 1 else 0)
  }

  lemma {:induction false} AllSucceedIff(ds: seq<real>)
    ensures Successes(ds) == |ds| <==> forall i :: 0 <= i < |ds| ==> ds[i] < SuccessDeviation
    decreases |ds|
  {
    if ds != [] {
      var p := ds[..|ds| - 1];
      AllSucceedIff(p);
      assert forall i :: 0 <= i < |p| ==> p[i] == ds[i];
    }
  }

  datatype PrecisionStats = PrecisionStats(deviation: Summary, successRate: real)

  /**
   * The precision report: the deviation group and the percentage of tests
   * within 50 px; all zeros before the first test.
   */
  function PrecisionStatsOf(hits: seq<PrecisionHit>): (r: PrecisionStats)
    ensures r.deviation == Summarize(Deviations(hits))
    ensures 0.0 <= r.successRate <= 100.0
    ensures hits == [] ==> r == PrecisionStats(Summary(0.0, 0.0, 0.0, 0), 0.0)
    ensures hits != [] ==>
      (r.successRate == 100.0 <==> forall i :: 0 <= i < |hits| ==> hits[i].deviation < SuccessDeviation)
  {
    var ds := Deviations(hits);
    AllSucceedIff(ds);
    PrecisionStats(Summarize(ds), Percent(Successes(ds), |ds|))
  }

  /** The smoothness score: 100 without jitter, otherwise 100 minus the jitter, floored at 0. */
  function SmoothnessScore(jitter: real): (score: real)
    ensures jitter >= 0.0 ==> 0.0 <= score <= 100.0
    ensures jitter >= 0.0 ==> (score == 100.0 <==> jitter == 0.0)
    ensures jitter >= 100.0 ==> score == 0.0
  {
    if jitter == 0.0 then 100.0
    else if 100.0 - jitter > 0.0 then 100.0 - jitter else 0.0
  }

  datatype SmoothnessStats = SmoothnessStats(jitter: real, score: real, sampleCount: nat)

  const SpeedCategories: set<Speed> := {Slow, Normal, Fast}

  lemma EverySpeed()
    ensures forall c: Speed :: c in SpeedCategories
  {
    forall c: Speed ensures c in SpeedCategories {
      match c
      case Slow =>
      case Normal =>
      case Fast =>
    }
  }

  /** The speed group of one category. */
  datatype SpeedSummary = SpeedSummary(averageSpeed: real, averageTimeMs: real, count: nat)

  /** The records of category `c`, in recording order. */
  function InCategory(data: seq<SpeedRecord>, c: Speed): (r: seq<SpeedRecord>)
    ensures |r| <= |data|
    ensures forall i :: 0 <= i < |r| ==> r[i].category == c
    ensures forall x :: x in r <==> x in data && x.category == c
    ensures (exists i :: 0 <= i < |data| && data[i].category == c) <==> r != []
  {
    if data == [] then []
    else
      var rest := InCategory(data[..|data| - 1], c);
      var last := data[|data| - 1];
      assert forall i :: 0 <= i < |data| - 1 ==> data[..|data| - 1][i] == data[i];
      if last.category == c then rest + [last] else rest
  }

  /**
   * The three categories split the records: every record lands in exactly
   * one of them, so their sizes add up to the number of records.
   */
  lemma {:induction false} CategoriesPartition(data: seq<SpeedRecord>)
    ensures |InCategory(data, Slow)| + |InCategory(data, Normal)| + |InCategory(data, Fast)| == |data|
  {
    if data != [] {
      CategoriesPartition(data[..|data| - 1]);
    }
  }

  function Speeds(data: seq<SpeedRecord>): (r: seq<real>)
    ensures |r| == |data|
  {
    seq(|data|, i requires 0 <= i < |data| => data[i].speed)
  }

  function Times(data: seq<SpeedRecord>): (r: seq<real>)
    ensures |r| == |data|
  {
    seq(|data|, i requires 0 <= i < |data| => data[i].timeMs)
  }

  /**
   * The speed report: one group per category that has at least one run,
   * with the mean speed and mean time of that category's runs only.
   */
  function SpeedStats(data: seq<SpeedRecord>): (r: map<Speed, SpeedSummary>)
    ensures forall c :: c in r <==> exists i :: 0 <= i < |data| && data[i].category == c
    ensures forall c :: c in r ==>
      && r[c].count == |InCategory(data, c)| > 0
      && r[c].averageSpeed == Mean(Speeds(InCategory(data, c)))
      && r[c].averageTimeMs == Mean(Times(InCategory(data, c)))
  {
    EverySpeed();
    map c: Speed | c in SpeedCategories && InCategory(data, c) != [] ::
      var runs := InCategory(data, c);
      SpeedSummary(Mean(Speeds(runs)), Mean(Times(runs)), |runs|)
  }

  /**
   * The 3x3 grid uses margins of a sixth of the image and puts the targets
   * in row-major order; this is its target at row `row`, column `col`.
   */
  function GridPoint(width: int, height: int, gridSize: int, row: int, col: int): Point
    requires gridSize >= 2
  {
    var mx, my := width / 6, height / 6;
    Point(mx + col * ((width - 2 * mx) / (gridSize - 1)), my + row * ((height - 2 * my) / (gridSize - 1)))
  }

  /** One row of the grid, left to right. */
  function GridRow(width: int, height: int, gridSize: int, row: int): (r: seq<Point>)
    requires gridSize >= 2
    ensures |r| == gridSize
    ensures forall c :: 0 <= c < gridSize ==> r[c] == GridPoint(width, height, gridSize, row, c)
  {
    seq(gridSize, c requires 0 <= c < gridSize => GridPoint(width, height, gridSize, row, c))
  }

  /** The first `rows` rows of the grid, top to bottom. */
  function GridRows(width: int, height: int, gridSize: int, rows: nat): seq<Point>
    requires gridSize >= 2
  {
    if rows == 0 then [] else GridRows(width, height, gridSize, rows - 1) + GridRow(width, height, gridSize, rows - 1)
  }

  lemma {:induction false} GridLength(width: int, height: int, gridSize: int, rows: nat)
    requires gridSize >= 2
    ensures |GridRows(width, height, gridSize, rows)| == rows * gridSize
  {
    if rows > 0 {
      GridLength(width, height, gridSize, rows - 1);
      GridRowStep(rows - 1, gridSize);
    }
  }

  lemma {:induction false} GridEntry(width: int, height: int, gridSize: int, rows: nat, row: int, col: int)
    requires gridSize >= 2 && 0 <= row < rows && 0 <= col < gridSize
    ensures row * gridSize + col < |GridRows(width, height, gridSize, rows)|
      && GridRows(width, height, gridSize, rows)[row * gridSize + col] == GridPoint(width, height, gridSize, row, col)
  {
    GridLength(width, height, gridSize, rows);
    var prev := GridRows(width, height, gridSize, rows - 1);
    GridLength(width, height, gridSize, rows - 1);
    if row < rows - 1 {
      IndexBelowRow(row, col, rows - 1, gridSize);
      GridEntry(width, height, gridSize, rows - 1, row, col);
    } else {
      assert row * gridSize + col == |prev| + col;
    }
  }

  /** The grid is row-major: target `row * n + col` is at row `row`, column `col`. */
  lemma GridRowMajor(width: int, height: int, gridSize: int, rows: nat)
    requires gridSize >= 2
    ensures |GridRows(width, height, gridSize, rows)| == rows * gridSize
    ensures forall row, col :: 0 <= row < rows && 0 <= col < gridSize ==>
      GridRows(width, height, gridSize, rows)[row * gridSize + col] == GridPoint(width, height, gridSize, row, col)
  {
    GridLength(width, height, gridSize, rows);
    forall row, col | 0 <= row < rows && 0 <= col < gridSize
      ensures GridRows(width, height, gridSize, rows)[row * gridSize + col] == GridPoint(width, height, gridSize, row, col)
    {
      GridEntry(width, height, gridSize, rows, row, col);
    }
  }

  lemma IndexBelowRow(row: int, col: int, rows: int, n: int)
    requires 0 <= row < rows && 0 <= col < n
    ensures 0 <= row * n + col < rows * n
  {
    assert row * n + col < row * n + n == (row + 1) * n;
    assert (row + 1) * n <= rows * n;
  }

  /**
   * The target grid of `gridSize` rows and columns, row by row. A grid size
   * of 1 divides by zero, and a size below 1 has no rows.
   */
  method GenerateTargetGrid(width: int, height: int, gridSize: int) returns (targets: seq<Point>)
    requires gridSize != 1
    ensures gridSize < 1 ==> targets == []
    ensures gridSize >= 2 ==> targets == GridRows(width, height, gridSize, gridSize)
  {
    targets := [];
    if gridSize < 1 {
      return;
    }
    var marginX := width / 6;
    var marginY := height / 6;
    var stepX := (width - 2 * marginX) / (gridSize - 1);
    var stepY := (height - 2 * marginY) / (gridSize - 1);
    assert forall r, c :: GridPoint(width, height, gridSize, r, c) == Point(marginX + c * stepX, marginY + r * stepY);
    var row := 0;
    while row < gridSize
      invariant 0 <= row <= gridSize
      invariant targets == GridRows(width, height, gridSize, row)
    {
      var col := 0;
      while col < gridSize
        invariant 0 <= col <= gridSize
        invariant targets == GridRows(width, height, gridSize, row) + GridRow(width, height, gridSize, row)[..col]
      {
        ghost var line := GridRow(width, height, gridSize, row);
        assert line[..col + 1] == line[..col] + [line[col]];
        targets := targets + [Point(marginX + col * stepX, marginY + row * stepY)];
        col := col + 1;
      }
      row := row + 1;
    }
  }

  lemma GridRowStep(row: int, n: int)
    ensures (row + 1) * n == row * n + n
  {
  }

  /** On an image of non-negative size every 3x3 target lies inside the image. */
  lemma GridInsideImage(width: nat, height: nat, row: int, col: int)
    requires 0 <= row < 3 && 0 <= col < 3
    ensures var p := GridPoint(width, height, 3, row, col);
      0 <= p.x <= width && 0 <= p.y <= height
  {
    StepFits(width, col);
    StepFits(height, row);
  }

  lemma StepFits(size: nat, k: int)
    requires 0 <= k < 3
    ensures 0 <= size / 6 + k * ((size - 2 * (size / 6)) / 2) <= size
  {
    var m := size / 6;
    var step := (size - 2 * m) / 2;
    assert 0 <= step && 2 * step <= size - 2 * m;
    assert k * step <= 2 * step;
  }

  class CursorTestTracker {
    var precisionHits: seq<PrecisionHit>
    var smoothnessData: seq<Sample>
    var speedData: seq<SpeedRecord>

    ghost predicate Valid()
      reads this
    {
      |smoothnessData| <= SmoothnessWindow
    }

    constructor ()
      ensures Valid()
      ensures precisionHits == [] && smoothnessData == [] && speedData == []
    {
      precisionHits := [];
      smoothnessData := [];
      speedData := [];
    }

    /**
     * Records a precision test; `deviation` is the Euclidean distance from
     * the target to the cursor, and is also the result.
     */
    method AddPrecisionTest(target: Point, cursor: Point, deviation: real) returns (d: real)
      requires Valid() && IsLength(deviation, target, cursor)
      modifies this
      ensures Valid() && d == deviation
      ensures precisionHits == old(precisionHits) + [PrecisionHit(target, cursor, deviation)]
      ensures smoothnessData == old(smoothnessData) && speedData == old(speedData)
    {
      precisionHits := precisionHits + [PrecisionHit(target, cursor, deviation)];
      d := deviation;
    }

    /** Appends a cursor sample, dropping the oldest once 100 are kept. */
    method AddSmoothnessSample(position: Point, time: real)
      requires Valid()
      modifies this
      ensures Valid()
      ensures smoothnessData == Window(old(smoothnessData) + [Sample(position, time)])
      ensures precisionHits == old(precisionHits) && speedData == old(speedData)
    {
      smoothnessData := smoothnessData + [Sample(position, time)];
      if |smoothnessData| > SmoothnessWindow {
        smoothnessData := smoothnessData[1..];
      }
    }

    /**
     * The squared jitter of the kept samples; `lengths` are the distances
     * between consecutive samples.
     */
    method CalculateJitterSquared(lengths: seq<real>) returns (v: real)
      requires ConsecutiveLengths(Positions(smoothnessData), lengths)
      ensures v == JitterSquared(Positions(smoothnessData), lengths) && v >= 0.0
    {
      v := CalculateJitterVariance(Positions(smoothnessData), lengths);
    }

    method AddSpeedTest(category: Speed, distance: real, timeMs: real)
      requires Valid()
      modifies this
      ensures Valid()
      ensures speedData == old(speedData) + [SpeedRecord(category, distance, timeMs, SpeedOf(distance, timeMs))]
      ensures precisionHits == old(precisionHits) && smoothnessData == old(smoothnessData)
    {
      speedData := speedData + [SpeedRecord(category, distance, timeMs, SpeedOf(distance, timeMs))];
    }

    function GetPrecisionStats(): PrecisionStats
      reads this
    {
      PrecisionStatsOf(precisionHits)
    }

    /** The smoothness report, given the jitter of the kept samples. */
    function GetSmoothnessStats(lengths: seq<real>, jitter: real): (r: SmoothnessStats)
      reads this
      requires ConsecutiveLengths(Positions(smoothnessData), lengths)
      requires IsJitter(jitter, Positions(smoothnessData), lengths)
      ensures r.sampleCount == |smoothnessData| && r.jitter == jitter
      ensures 0.0 <= r.score <= 100.0
      ensures r.score == 100.0 <==> |smoothnessData| < 3 || Steady(lengths)
    {
      JitterZeroIff(jitter, Positions(smoothnessData), lengths);
      SmoothnessStats(jitter, SmoothnessScore(jitter), |smoothnessData|)
    }

    function GetSpeedStats(): map<Speed, SpeedSummary>
      reads this
    {
      SpeedStats(speedData)
    }
  }
}
