/**
 * The four-aspect cursor test with adjustable thresholds: precision
 * pointing, cursor smoothness, edge detection and rapid movement, each
 * recorded as a list of records and summarised against its threshold.
 */
module AdjustableCursorTest {
  import opened Wrappers
  import opened Geometry
  import opened Statistics
  import opened Jitter
  import CursorTesting

  /** A rapid movement succeeds when it is faster than this, in ms ... */
  const RapidTimeThreshold: real := 1000.0
  /** ... and longer than this, in pixels. */
  const RapidDistanceThreshold: nat := 200
  /** A precision test hits below this deviation, in pixels. */
  const PrecisionHitThreshold: nat := 30
  /** The cursor is at an edge within this distance of it, in pixels. */
  const EdgeHitThreshold: int := 50

  datatype PrecisionRecord = PrecisionRecord(target: Point, cursor: Point, deviation: real, latencyMs: real, hit: bool)
  datatype EdgeRecord = EdgeRecord(targetEdge: Point, cursor: Point, deviation: real, latencyMs: real, atEdge: bool)
  datatype RapidRecord = RapidRecord(start: Point, end: Point, distance: real, timeMs: real, speed: real)

  /** The classification `add_edge` makes, against the screen size. */
  predicate AtEdge(cursor: Point, screenWidth: int, screenHeight: int) {
    || cursor.x < EdgeHitThreshold
    || cursor.x > screenWidth - EdgeHitThreshold
    || cursor.y < EdgeHitThreshold
    || cursor.y > screenHeight - EdgeHitThreshold
  }

  /** A rapid movement that counts as successful. */
  predicate RapidSuccess(r: RapidRecord) {
    r.distance > RapidDistanceThreshold as real && r.timeMs < RapidTimeThreshold
  }

  // The records as `add_*` builds them from the two points and their length.

  ghost predicate PrecisionRecorded(r: PrecisionRecord) {
    IsLength(r.deviation, r.target, r.cursor) && r.hit == (r.deviation < PrecisionHitThreshold as real)
  }

  ghost predicate EdgeRecorded(r: EdgeRecord, screenWidth: int, screenHeight: int) {
    IsLength(r.deviation, r.targetEdge, r.cursor) && r.atEdge == AtEdge(r.cursor, screenWidth, screenHeight)
  }

  ghost predicate RapidRecorded(r: RapidRecord) {
    IsLength(r.distance, r.start, r.end) && r.speed == CursorTesting.SpeedOf(r.distance, r.timeMs)
  }

  function HitFlags(data: seq<PrecisionRecord>): (bs: seq<bool>)
    ensures |bs| == |data| && forall i :: 0 <= i < |data| ==> bs[i] == data[i].hit
  {
    seq(|data|, i requires 0 <= i < |data| => data[i].hit)
  }

  function EdgeFlags(data: seq<EdgeRecord>): (bs: seq<bool>)
    ensures |bs| == |data| && forall i :: 0 <= i < |data| ==> bs[i] == data[i].atEdge
  {
    seq(|data|, i requires 0 <= i < |data| => data[i].atEdge)
  }

  function SuccessFlags(data: seq<RapidRecord>): (bs: seq<bool>)
    ensures |bs| == |data| && forall i :: 0 <= i < |data| ==> bs[i] == RapidSuccess(data[i])
  {
    seq(|data|, i requires 0 <= i < |data| => RapidSuccess(data[i]))
  }

  function PrecisionDeviations(data: seq<PrecisionRecord>): seq<real> {
    seq(|data|, i requires 0 <= i < |data| => data[i].deviation)
  }

  function PrecisionLatencies(data: seq<PrecisionRecord>): seq<real> {
    seq(|data|, i requires 0 <= i < |data| => data[i].latencyMs)
  }

  function EdgeDeviations(data: seq<EdgeRecord>): seq<real> {
    seq(|data|, i requires 0 <= i < |data| => data[i].deviation)
  }

  function EdgeLatencies(data: seq<EdgeRecord>): seq<real> {
    seq(|data|, i requires 0 <= i < |data| => data[i].latencyMs)
  }

  function RapidDistances(data: seq<RapidRecord>): seq<real> {
    seq(|data|, i requires 0 <= i < |data| => data[i].distance)
  }

  function RapidTimes(data: seq<RapidRecord>): seq<real> {
    seq(|data|, i requires 0 <= i < |data| => data[i].timeMs)
  }

  function RapidSpeeds(data: seq<RapidRecord>): seq<real> {
    seq(|data|, i requires 0 <= i < |data| => data[i].speed)
  }

  function SampleTimes(data: seq<CursorTesting.Sample>): seq<real> {
    seq(|data|, i requires 0 <= i < |data| => data[i].time)
  }

  datatype PrecisionReport = PrecisionReport(count: nat, accuracy: real, avgDeviation: real, avgLatency: real, hits: nat)
  datatype SmoothnessReport = SmoothnessReport(count: nat, jitter: real, smoothnessScore: real, avgLatency: real)
  datatype EdgeReport = EdgeReport(count: nat, accuracy: real, avgDeviation: real, avgLatency: real, edgeHits: nat)
  datatype RapidReport = RapidReport(count: nat, accuracy: real, avgDistance: real, avgTimeMs: real, avgSpeed: real,
                                     successful: nat, thresholdTime: real, thresholdDistance: nat)

  /**
   * The precision report: none before the first test, otherwise the share
   * of hits as a percentage and the mean deviation and latency.
   */
  function PrecisionStatsOf(data: seq<PrecisionRecord>): (r: Option<PrecisionReport>)
    ensures r.None? <==> data == []
    ensures r.Some? ==>
      && r.value.count == |data| && r.value.hits == Count(HitFlags(data)) <= r.value.count
      && r.value.accuracy == Percent(r.value.hits, r.value.count)
      && 0.0 <= r.value.accuracy <= 100.0
      && (r.value.accuracy == 100.0 <==> forall i :: 0 <= i < |data| ==> data[i].hit)
      && (r.value.accuracy == 0.0 <==> forall i :: 0 <= i < |data| ==> !data[i].hit)
      && r.value.avgDeviation == Mean(PrecisionDeviations(data))
      && r.value.avgLatency == Mean(PrecisionLatencies(data))
  {
    if data == [] then None
    else
      var hits := Count(HitFlags(data));
      CountExtremes(HitFlags(data));
      Some(PrecisionReport(|data|, Percent(hits, |data|), Mean(PrecisionDeviations(data)),
                           Mean(PrecisionLatencies(data)), hits))
  }

  /** The edge report, built like the precision report from the at-edge flags. */
  function EdgeStatsOf(data: seq<EdgeRecord>): (r: Option<EdgeReport>)
    ensures r.None? <==> data == []
    ensures r.Some? ==>
      && r.value.count == |data| && r.value.edgeHits == Count(EdgeFlags(data)) <= r.value.count
      && r.value.accuracy == Percent(r.value.edgeHits, r.value.count)
      && 0.0 <= r.value.accuracy <= 100.0
      && (r.value.accuracy == 100.0 <==> forall i :: 0 <= i < |data| ==> data[i].atEdge)
      && (r.value.accuracy == 0.0 <==> forall i :: 0 <= i < |data| ==> !data[i].atEdge)
      && r.value.avgDeviation == Mean(EdgeDeviations(data))
      && r.value.avgLatency == Mean(EdgeLatencies(data))
  {
    if data == [] then None
    else
      var hits := Count(EdgeFlags(data));
      CountExtremes(EdgeFlags(data));
      Some(EdgeReport(|data|, Percent(hits, |data|), Mean(EdgeDeviations(data)), Mean(EdgeLatencies(data)), hits))
  }

  /**
   * The rapid-movement report: none before the first movement, otherwise
   * the means and the share of movements that beat both thresholds.
   */
  function RapidStatsOf(data: seq<RapidRecord>): (r: Option<RapidReport>)
    ensures r.None? <==> data == []
    ensures r.Some? ==>
      && r.value.count == |data| && r.value.successful == Count(SuccessFlags(data)) <= r.value.count
      && r.value.accuracy == Percent(r.value.successful, r.value.count)
      && 0.0 <= r.value.accuracy <= 100.0
      && (r.value.accuracy == 100.0 <==> forall i :: 0 <= i < |data| ==> RapidSuccess(data[i]))
      && (r.value.accuracy == 0.0 <==> forall i :: 0 <= i < |data| ==> !RapidSuccess(data[i]))
      && r.value.avgDistance == Mean(RapidDistances(data))
      && r.value.avgTimeMs == Mean(RapidTimes(data))
      && r.value.avgSpeed == Mean(RapidSpeeds(data))
      && r.value.thresholdTime == RapidTimeThreshold && r.value.thresholdDistance == RapidDistanceThreshold
  {
    if data == [] then None
    else
      var successful := Count(SuccessFlags(data));
      CountExtremes(SuccessFlags(data));
      Some(RapidReport(|data|, Percent(successful, |data|), Mean(RapidDistances(data)), Mean(RapidTimes(data)),
                       Mean(RapidSpeeds(data)), successful, RapidTimeThreshold, RapidDistanceThreshold))
  }

  /** `max(0, 100 - 2 * jitter)`. */
  function SmoothnessScore(jitter: real): (score: real)
    ensures jitter >= 0.0 ==> 0.0 <= score <= 100.0
    ensures jitter >= 0.0 ==> (score == 100.0 <==> jitter == 0.0)
    ensures jitter >= 50.0 ==> score == 0.0
  {
    if 100.0 - jitter * 2.0 > 0.0 then 100.0 - jitter * 2.0 else 0.0
  }

  /**
   * The smoothness report: none below three samples, otherwise the jitter
   * of the sample positions, its score and the mean recorded time.
   */
  function SmoothnessStatsOf(data: seq<CursorTesting.Sample>, lengths: seq<real>, jitter: real): (r: Option<SmoothnessReport>)
    requires ConsecutiveLengths(CursorTesting.Positions(data), lengths)
    requires IsJitter(jitter, CursorTesting.Positions(data), lengths)
    ensures r.None? <==> |data| < 3
    ensures r.Some? ==>
      && r.value.count == |data| && r.value.jitter == jitter
      && 0.0 <= r.value.smoothnessScore <= 100.0
      && (r.value.smoothnessScore == 100.0 <==> Steady(lengths))
      && r.value.avgLatency == Mean(SampleTimes(data))
  {
    if |data| < 3 then None
    else
      JitterZeroIff(jitter, CursorTesting.Positions(data), lengths);
      Some(SmoothnessReport(|data|, jitter, SmoothnessScore(jitter), Mean(SampleTimes(data))))
  }

  /**
   * For well-formed records every precision test hits exactly when every
   * cursor was strictly within 30 px of its target.
   */
  lemma PrecisionPerfectIffAllClose(data: seq<PrecisionRecord>)
    requires data != [] && forall i :: 0 <= i < |data| ==> PrecisionRecorded(data[i])
    ensures PrecisionStatsOf(data).value.accuracy == 100.0 <==>
      forall i :: 0 <= i < |data| ==> Closer(data[i].target, data[i].cursor, PrecisionHitThreshold)
  {
    forall i | 0 <= i < |data|
      ensures data[i].hit <==> Closer(data[i].target, data[i].cursor, PrecisionHitThreshold)
    {
      LengthComparisons(data[i].deviation, data[i].target, data[i].cursor, PrecisionHitThreshold);
    }
  }

  /**
   * For well-formed records a movement succeeds exactly when its end is
   * more than 200 px from its start and it took less than 1000 ms.
   */
  lemma RapidSuccessIffFarAndFast(r: RapidRecord)
    requires RapidRecorded(r)
    ensures RapidSuccess(r) <==> Farther(r.start, r.end, RapidDistanceThreshold) && r.timeMs < RapidTimeThreshold
  {
    LengthComparisons(r.distance, r.start, r.end, RapidDistanceThreshold);
  }

  // The targets of each mode.

  datatype TestMode = Precision | Smoothness | Edge | Rapid
  datatype Target = Target(center: Point, radius: int)

  function WithRadius(ps: seq<Point>, radius: int): (ts: seq<Target>)
    ensures |ts| == |ps| && forall i :: 0 <= i < |ps| ==> ts[i] == Target(ps[i], radius)
  {
    seq(|ps|, i requires 0 <= i < |ps| => Target(ps[i], radius))
  }

  /** The edge targets: the four corners and four edge midpoints 30 px in, then the centre. */
  function EdgeTargets(width: int, height: int): seq<Target> {
    var m := 30;
    [Target(Point(m, m), 20), Target(Point(width / 2, m), 20), Target(Point(width - m, m), 20),
     Target(Point(m, height / 2), 20), Target(Point(width - m, height / 2), 20),
     Target(Point(m, height - m), 20), Target(Point(width / 2, height - m), 20),
     Target(Point(width - m, height - m), 20), Target(Point(width / 2, height / 2), 20)]
  }

  /** The rapid targets: the points of the quarter grid, centre last. */
  function RapidTargets(width: int, height: int): seq<Target> {
    [Target(Point(width / 4, height / 4), 25), Target(Point(3 * width / 4, height / 4), 25),
     Target(Point(width / 4, 3 * height / 4), 25), Target(Point(3 * width / 4, 3 * height / 4), 25),
     Target(Point(width / 2, height / 4), 25), Target(Point(width / 2, 3 * height / 4), 25),
     Target(Point(width / 4, height / 2), 25), Target(Point(3 * width / 4, height / 2), 25),
     Target(Point(width / 2, height / 2), 25)]
  }

  /** The targets of `mode` on an image of `width` by `height` pixels. */
  method GenerateTargets(mode: TestMode, width: int, height: int) returns (targets: seq<Target>)
    ensures mode == Precision ==> targets == WithRadius(CursorTesting.GridRows(width, height, 3, 3), 15)
    ensures mode == Edge ==> targets == EdgeTargets(width, height)
    ensures mode == Rapid ==> targets == RapidTargets(width, height)
    ensures mode == Smoothness ==> targets == []
  {
    targets := [];
    match mode
    case Precision =>
      var marginX, marginY := width / 6, height / 6;
      var stepX := (width - 2 * marginX) / 2;
      var stepY := (height - 2 * marginY) / 2;
      assert forall r, c :: CursorTesting.GridPoint(width, height, 3, r, c) == Point(marginX + c * stepX, marginY + r * stepY);
      var row := 0;
      while row < 3
        invariant 0 <= row <= 3
        invariant targets == WithRadius(CursorTesting.GridRows(width, height, 3, row), 15)
      {
        var col := 0;
        while col < 3
          invariant 0 <= col <= 3
          invariant targets == WithRadius(CursorTesting.GridRows(width, height, 3, row)
                                          + CursorTesting.GridRow(width, height, 3, row)[..col], 15)
        {
          ghost var done := CursorTesting.GridRows(width, height, 3, row) + CursorTesting.GridRow(width, height, 3, row)[..col];
          ghost var next := CursorTesting.GridRows(width, height, 3, row) + CursorTesting.GridRow(width, height, 3, row)[..col + 1];
          assert next == done + [CursorTesting.GridPoint(width, height, 3, row, col)];
          targets := targets + [Target(Point(marginX + col * stepX, marginY + row * stepY), 15)];
          WithRadiusAppend(done, CursorTesting.GridPoint(width, height, 3, row, col), 15);
          col := col + 1;
        }
        assert CursorTesting.GridRow(width, height, 3, row)[..3] == CursorTesting.GridRow(width, height, 3, row);
        row := row + 1;
      }
    case Edge =>
      targets := EdgeTargets(width, height);
    case Rapid =>
      targets := RapidTargets(width, height);
    case Smoothness =>
  }

  lemma WithRadiusAppend(ps: seq<Point>, p: Point, radius: int)
    ensures WithRadius(ps + [p], radius) == WithRadius(ps, radius) + [Target(p, radius)]
  {
  }

  /** How many targets each mode lays out, and their radius. */
  function TargetRadius(mode: TestMode): int {
    match mode
    case Precision => 15
    case Smoothness => 0
    case Edge => 20
    case Rapid => 25
  }

  lemma TargetCounts(mode: TestMode, width: int, height: int, targets: seq<Target>)
    requires mode == Precision ==> targets == WithRadius(CursorTesting.GridRows(width, height, 3, 3), 15)
    requires mode == Edge ==> targets == EdgeTargets(width, height)
    requires mode == Rapid ==> targets == RapidTargets(width, height)
    requires mode == Smoothness ==> targets == []
    ensures mode != Smoothness ==> |targets| == 9
    ensures forall i :: 0 <= i < |targets| ==> targets[i].radius == TargetRadius(mode)
  {
    CursorTesting.GridLength(width, height, 3, 3);
  }

  /**
   * On an image at least 62 px each way the nine edge targets are distinct,
   * the first eight lie 30 px from a border and the last is the centre.
   */
  lemma EdgeTargetsOnBorder(width: int, height: int)
    requires width >= 62 && height >= 62
    ensures var ts := EdgeTargets(width, height);
      && (forall i, j :: 0 <= i < j < 9 ==> ts[i].center != ts[j].center)
      && (forall i :: 0 <= i < 8 ==>
            var c := ts[i].center;
            c.x == 30 || c.x == width - 30 || c.y == 30 || c.y == height - 30)
      && ts[8].center == Point(width / 2, height / 2)
  {
  }

  /** On an image at least 4 px each way the nine rapid targets are distinct. */
  lemma RapidTargetsDistinct(width: int, height: int)
    requires width >= 4 && height >= 4
    ensures var ts := RapidTargets(width, height);
      forall i, j :: 0 <= i < j < 9 ==> ts[i].center != ts[j].center
  {
  }

  /**
   * When the screen is the size of the camera image and at least 100 px
   * each way, a cursor placed exactly on an edge target is at an edge, and
   * one on the centre target is not.
   */
  lemma EdgeTargetsClassified(width: int, height: int)
    requires width >= 100 && height >= 100
    ensures var ts := EdgeTargets(width, height);
      && (forall i :: 0 <= i < 8 ==> AtEdge(ts[i].center, width, height))
      && !AtEdge(ts[8].center, width, height)
  {
  }

  /**
   * `add_edge` compares a camera position against the screen size: once
   * the screen is more than 20 px wider than the image, a cursor exactly on
   * the right-hand edge target of the middle row is not at an edge.
   */
  lemma RightEdgeMissedOnWideScreen(width: int, height: int, screenWidth: int, screenHeight: int)
    requires width >= 100 && height >= 100 && screenWidth > width + 20 && screenHeight >= height
    ensures !AtEdge(EdgeTargets(width, height)[4].center, screenWidth, screenHeight)
  {
  }

  /**
   * On a screen more than 20 px larger than the image both ways, only the
   * targets on the top row and the left column (30 px from the image's
   * origin) count as at an edge; the middle-right, bottom-middle,
   * bottom-right and centre targets never do.
   */
  lemma LargeScreenReachesOnlyTopAndLeft(width: int, height: int, screenWidth: int, screenHeight: int)
    requires width >= 100 && height >= 100 && screenWidth > width + 20 && screenHeight > height + 20
    ensures var ts := EdgeTargets(width, height);
      forall i :: 0 <= i < |ts| ==>
        (AtEdge(ts[i].center, screenWidth, screenHeight) <==> ts[i].center.x == 30 || ts[i].center.y == 30)
    ensures var ts := EdgeTargets(width, height);
      && AtEdge(ts[0].center, screenWidth, screenHeight) && AtEdge(ts[1].center, screenWidth, screenHeight)
      && AtEdge(ts[2].center, screenWidth, screenHeight) && AtEdge(ts[3].center, screenWidth, screenHeight)
      && AtEdge(ts[5].center, screenWidth, screenHeight)
      && !AtEdge(ts[4].center, screenWidth, screenHeight) && !AtEdge(ts[6].center, screenWidth, screenHeight)
      && !AtEdge(ts[7].center, screenWidth, screenHeight) && !AtEdge(ts[8].center, screenWidth, screenHeight)
  {
  }

  /** The four lists of records of one run of the test. */
  class CursorTestingData {
    const screenWidth: int
    const screenHeight: int
    var precisionData: seq<PrecisionRecord>
    var smoothnessData: seq<CursorTesting.Sample>
    var edgeData: seq<EdgeRecord>
    var rapidData: seq<RapidRecord>

    /** Every record is as `add_*` builds it. */
    ghost predicate Valid()
      reads this
    {
      && (forall i :: 0 <= i < |precisionData| ==> PrecisionRecorded(precisionData[i]))
      && (forall i :: 0 <= i < |edgeData| ==> EdgeRecorded(edgeData[i], screenWidth, screenHeight))
      && (forall i :: 0 <= i < |rapidData| ==> RapidRecorded(rapidData[i]))
    }

    constructor (screenWidth: int, screenHeight: int)
      ensures Valid() && this.screenWidth == screenWidth && this.screenHeight == screenHeight
      ensures precisionData == [] && smoothnessData == [] && edgeData == [] && rapidData == []
    {
      this.screenWidth := screenWidth;
      this.screenHeight := screenHeight;
      precisionData := [];
      smoothnessData := [];
      edgeData := [];
      rapidData := [];
    }

    /**
     * Records one precision test; `deviation` is the distance from the
     * target to the cursor. A hit is strictly closer than 30 px.
     */
    method AddPrecision(targetPos: Point, cursorPos: Point, timeMs: real, deviation: real) returns (hit: bool, dev: real)
      requires Valid() && IsLength(deviation, targetPos, cursorPos)
      modifies this
      ensures Valid() && dev == deviation
      ensures hit <==> Closer(targetPos, cursorPos, PrecisionHitThreshold)
      ensures precisionData == old(precisionData) + [PrecisionRecord(targetPos, cursorPos, deviation, timeMs, hit)]
      ensures smoothnessData == old(smoothnessData) && edgeData == old(edgeData) && rapidData == old(rapidData)
    {
      hit := deviation < PrecisionHitThreshold as real;
      LengthComparisons(deviation, targetPos, cursorPos, PrecisionHitThreshold);
      precisionData := precisionData + [PrecisionRecord(targetPos, cursorPos, deviation, timeMs, hit)];
      dev := deviation;
    }

    method AddSmoothness(cursorPos: Point, timeMs: real)
      requires Valid()
      modifies this
      ensures Valid()
      ensures smoothnessData == old(smoothnessData) + [CursorTesting.Sample(cursorPos, timeMs)]
      ensures precisionData == old(precisionData) && edgeData == old(edgeData) && rapidData == old(rapidData)
    {
      smoothnessData := smoothnessData + [CursorTesting.Sample(cursorPos, timeMs)];
    }

    /** Records one edge test; `deviation` is the distance from the edge target to the cursor. */
    method AddEdge(edgePoint: Point, cursorPos: Point, timeMs: real, deviation: real) returns (atEdge: bool, dev: real)
      requires Valid() && IsLength(deviation, edgePoint, cursorPos)
      modifies this
      ensures Valid() && dev == deviation
      ensures atEdge <==> AtEdge(cursorPos, screenWidth, screenHeight)
      ensures edgeData == old(edgeData) + [EdgeRecord(edgePoint, cursorPos, deviation, timeMs, atEdge)]
      ensures precisionData == old(precisionData) && smoothnessData == old(smoothnessData) && rapidData == old(rapidData)
    {
      atEdge := cursorPos.x < EdgeHitThreshold || cursorPos.x > screenWidth - EdgeHitThreshold
        || cursorPos.y < EdgeHitThreshold || cursorPos.y > screenHeight - EdgeHitThreshold;
      edgeData := edgeData + [EdgeRecord(edgePoint, cursorPos, deviation, timeMs, atEdge)];
      dev := deviation;
    }

    /**
     * Records one rapid movement; `distance` is the distance from its start
     * to its end. The speed is in pixels per second, 0 for a zero time.
     */
    method AddRapid(startPos: Point, endPos: Point, timeMs: real, distance: real) returns (dist: real, speed: real)
      requires Valid() && IsLength(distance, startPos, endPos)
      modifies this
      ensures Valid() && dist == distance
      ensures speed == CursorTesting.SpeedOf(distance, timeMs)
      ensures timeMs > 0.0 ==> speed >= 0.0 && speed * timeMs == distance * 1000.0
      ensures timeMs <= 0.0 ==> speed == 0.0
      ensures rapidData == old(rapidData) + [RapidRecord(startPos, endPos, distance, timeMs, speed)]
      ensures precisionData == old(precisionData) && smoothnessData == old(smoothnessData) && edgeData == old(edgeData)
    {
      dist := distance;
      speed := if timeMs > 0.0 then distance / timeMs * 1000.0 else 0.0;
      rapidData := rapidData + [RapidRecord(startPos, endPos, distance, timeMs, speed)];
    }

    /** The squared jitter of `dataList`; `lengths` are the distances between consecutive samples. */
    method CalculateJitterSquared(dataList: seq<CursorTesting.Sample>, lengths: seq<real>) returns (v: real)
      requires ConsecutiveLengths(CursorTesting.Positions(dataList), lengths)
      ensures v == JitterSquared(CursorTesting.Positions(dataList), lengths) && v >= 0.0
      ensures |dataList| < 3 ==> v == 0.0
    {
      v := CalculateJitterVariance(CursorTesting.Positions(dataList), lengths);
    }

    function GetPrecisionStats(): Option<PrecisionReport>
      reads this
    {
      PrecisionStatsOf(precisionData)
    }

    function GetSmoothnessStats(lengths: seq<real>, jitter: real): Option<SmoothnessReport>
      reads this
      requires ConsecutiveLengths(CursorTesting.Positions(smoothnessData), lengths)
      requires IsJitter(jitter, CursorTesting.Positions(smoothnessData), lengths)
    {
      SmoothnessStatsOf(smoothnessData, lengths, jitter)
    }

    function GetEdgeStats(): Option<EdgeReport>
      reads this
    {
      EdgeStatsOf(edgeData)
    }

    function GetRapidStats(): Option<RapidReport>
      reads this
    {
      RapidStatsOf(rapidData)
    }
  }
}
