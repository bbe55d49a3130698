/**
 * The main loop of the four-aspect cursor test: keys 1 to 4 choose a mode
 * and lay out its targets, P records the middle fingertip against the
 * current target, and R restarts the current mode.
 */
module AdjustableSession {
  import opened Wrappers
  import opened Geometry
  import opened Landmarks
  import opened AdjustableCursorTest
  import CursorTesting

  datatype Key = ChooseMode(mode: TestMode) | RecordPoint | ResetMode | ShowStatistics | QuitKey | OtherKey

  function KeyOf(key: char): Key {
    if key == '1' then ChooseMode(Precision)
    else if key == '2' then ChooseMode(Smoothness)
    else if key == '3' then ChooseMode(Edge)
    else if key == '4' then ChooseMode(Rapid)
    else if key == 'p' || key == 'P' then RecordPoint
    else if key == 'r' || key == 'R' then ResetMode
    else if key == 's' || key == 'S' then ShowStatistics
    else if key == 'q' || key == 'Q' then QuitKey
    else OtherKey
  }

  /** Every mode with targets lays out nine of them. */
  const TargetCount: nat := 9
  /** Smoothness mode reports after this many samples. */
  const SmoothnessBatch: nat := 100

  class AdjustableTestLoop {
    var data: CursorTestingData
    var testingMode: Option<TestMode>
    var testTargets: seq<Target>
    var currentTargetIndex: nat
    var rapidStartPos: Option<Point>
    var rapidStartTime: Option<real>
    var frameCount: nat

    ghost predicate Valid()
      reads this, data
    {
      && data.Valid()
      && currentTargetIndex < TargetCount
      && (testTargets != [] ==> |testTargets| == TargetCount)
      && (rapidStartPos.Some? ==> rapidStartTime.Some?)
      && frameCount < SmoothnessBatch
    }

    constructor (screenWidth: int, screenHeight: int)
      ensures Valid() && fresh(data)
      ensures data.screenWidth == screenWidth && data.screenHeight == screenHeight
      ensures data.precisionData == [] && data.smoothnessData == [] && data.edgeData == [] && data.rapidData == []
      ensures testingMode == None && testTargets == [] && currentTargetIndex == 0
      ensures rapidStartPos == None && rapidStartTime == None && frameCount == 0
    {
      data := new CursorTestingData(screenWidth, screenHeight);
      testingMode := None;
      testTargets := [];
      currentTargetIndex := 0;
      rapidStartPos := None;
      rapidStartTime := None;
      frameCount := 0;
    }

    /**
     * One camera frame: in smoothness mode with exactly one hand, the
     * middle fingertip is recorded with this frame's processing time, and
     * the batch counter restarts every 100 samples.
     */
    method ProcessFrame(hands: seq<Hand>, frameTimeMs: real)
      requires Valid() && ValidHands(hands)
      modifies this, data
      ensures Valid() && data == old(data)
      ensures testingMode == old(testingMode) && testTargets == old(testTargets)
      ensures currentTargetIndex == old(currentTargetIndex)
      ensures rapidStartPos == old(rapidStartPos) && rapidStartTime == old(rapidStartTime)
      ensures data.precisionData == old(data.precisionData) && data.edgeData == old(data.edgeData)
      ensures data.rapidData == old(data.rapidData)
      ensures if |hands| == 1 && testingMode == Some(Smoothness) then
          && data.smoothnessData == old(data.smoothnessData) + [CursorTesting.Sample(hands[0][MiddleTip], frameTimeMs)]
          && frameCount == (old(frameCount) + 1) % SmoothnessBatch
        else data.smoothnessData == old(data.smoothnessData) && frameCount == old(frameCount)
    {
      if |hands| == 1 && testingMode == Some(Smoothness) {
        data.AddSmoothness(hands[0][MiddleTip], frameTimeMs);
        frameCount := frameCount + 1;
        if frameCount >= SmoothnessBatch {
          frameCount := 0;
        }
      }
    }

    /**
     * One key press. `hands` are the hands of the last frame; `deviation`
     * is the distance from the current target to the middle fingertip and
     * `distance` the distance from the rapid start to it.
     */
    method HandleKey(key: char, hands: seq<Hand>, imgWidth: int, imgHeight: int, now: real, frameTimeMs: real,
                     deviation: real, distance: real)
      returns (quit: bool)
      requires Valid() && ValidHands(hands)
      requires KeyOf(key) == RecordPoint && |hands| == 1 && testTargets != [] ==>
        && IsLength(deviation, testTargets[currentTargetIndex].center, hands[0][MiddleTip])
        && (rapidStartPos.Some? ==> IsLength(distance, rapidStartPos.value, hands[0][MiddleTip]))
      modifies this, data
      ensures Valid() && data == old(data)
      ensures quit <==> KeyOf(key) == QuitKey
      ensures KeyOf(key).ChooseMode? ==>
        var mode := KeyOf(key).mode;
        && testingMode == Some(mode)
        && (mode == Smoothness ==> testTargets == [] && frameCount == 0 && currentTargetIndex == old(currentTargetIndex))
        && (mode == Precision ==> testTargets == WithRadius(CursorTesting.GridRows(imgWidth, imgHeight, 3, 3), 15))
        && (mode == Edge ==> testTargets == EdgeTargets(imgWidth, imgHeight))
        && (mode == Rapid ==> testTargets == RapidTargets(imgWidth, imgHeight))
        && (mode != Smoothness ==> currentTargetIndex == 0 && frameCount == old(frameCount))
        && rapidStartPos == (if mode == Rapid then None else old(rapidStartPos))
        && rapidStartTime == old(rapidStartTime)
      ensures !KeyOf(key).ChooseMode? ==>
        testingMode == old(testingMode) && testTargets == old(testTargets) && frameCount == old(frameCount)
      ensures KeyOf(key) == ResetMode ==>
        currentTargetIndex == 0 && rapidStartPos == None && rapidStartTime == old(rapidStartTime)
      ensures KeyOf(key) != RecordPoint ==>
        && data.precisionData == old(data.precisionData)
        && data.edgeData == old(data.edgeData) && data.rapidData == old(data.rapidData)
      ensures data.smoothnessData == old(data.smoothnessData)
      ensures KeyOf(key) == RecordPoint ==>
        RecordPointEffect(data.screenWidth, data.screenHeight, old(testingMode), old(testTargets), old(currentTargetIndex), old(rapidStartPos),
                          old(rapidStartTime), hands, now, frameTimeMs, deviation, distance,
                          old(data.precisionData), old(data.edgeData), old(data.rapidData),
                          data.precisionData, data.edgeData, data.rapidData,
                          currentTargetIndex, rapidStartPos, rapidStartTime)
      ensures (KeyOf(key) == ShowStatistics || KeyOf(key) == QuitKey || KeyOf(key) == OtherKey) ==>
        currentTargetIndex == old(currentTargetIndex) && rapidStartPos == old(rapidStartPos)
        && rapidStartTime == old(rapidStartTime)
    {
      quit := false;
      match KeyOf(key)
      case ChooseMode(mode) =>
        testingMode := Some(mode);
        var targets := GenerateTargets(mode, imgWidth, imgHeight);
        TargetCounts(mode, imgWidth, imgHeight, targets);
        testTargets := targets;
        if mode == Smoothness {
          frameCount := 0;
        } else {
          currentTargetIndex := 0;
        }
        if mode == Rapid {
          rapidStartPos := None;
        }
      case RecordPoint =>
        RecordHit(hands, now, frameTimeMs, deviation, distance);
      case ResetMode =>
        currentTargetIndex := 0;
        rapidStartPos := None;
      case ShowStatistics =>
      case QuitKey =>
        quit := true;
      case OtherKey =>
    }

    /** The P key: see `RecordPointEffect`. */
    method RecordHit(hands: seq<Hand>, now: real, frameTimeMs: real, deviation: real, distance: real)
      requires Valid() && ValidHands(hands)
      requires |hands| == 1 && testTargets != [] ==>
        && IsLength(deviation, testTargets[currentTargetIndex].center, hands[0][MiddleTip])
        && (rapidStartPos.Some? ==> IsLength(distance, rapidStartPos.value, hands[0][MiddleTip]))
      modifies this, data
      ensures Valid() && data == old(data)
      ensures testingMode == old(testingMode) && testTargets == old(testTargets) && frameCount == old(frameCount)
      ensures data.smoothnessData == old(data.smoothnessData)
      ensures RecordPointEffect(data.screenWidth, data.screenHeight, old(testingMode), old(testTargets), old(currentTargetIndex), old(rapidStartPos),
                                old(rapidStartTime), hands, now, frameTimeMs, deviation, distance,
                                old(data.precisionData), old(data.edgeData), old(data.rapidData),
                                data.precisionData, data.edgeData, data.rapidData,
                                currentTargetIndex, rapidStartPos, rapidStartTime)
    {
      if |hands| == 1 && testingMode.Some? && testTargets != [] {
        var tip := hands[0][MiddleTip];
        var targetPos := testTargets[currentTargetIndex].center;
        match testingMode.value
        case Precision =>
          var _, _ := data.AddPrecision(targetPos, tip, frameTimeMs, deviation);
          currentTargetIndex := CursorTesting.NextTarget(currentTargetIndex, |testTargets|);
        case Edge =>
          var _, _ := data.AddEdge(targetPos, tip, frameTimeMs, deviation);
          currentTargetIndex := CursorTesting.NextTarget(currentTargetIndex, |testTargets|);
        case Rapid =>
          if rapidStartPos == None {
            rapidStartPos := Some(tip);
            rapidStartTime := Some(now);
          } else {
            var elapsed := (now - rapidStartTime.value) * 1000.0;
            var _, _ := data.AddRapid(rapidStartPos.value, tip, elapsed, distance);
            rapidStartPos := None;
            currentTargetIndex := CursorTesting.NextTarget(currentTargetIndex, |testTargets|);
          }
        case Smoothness =>
      }
    }
  }

  /**
   * What P does. With one hand, a mode and targets: precision and edge
   * modes record the fingertip against the current target and move to the
   * next one; rapid mode alternately records a start (position and time)
   * and a finish (one movement from that start, timed in ms), moving to the
   * next target on a finish. Otherwise nothing changes.
   */
  ghost predicate RecordPointEffect(
    screenWidth: int, screenHeight: int, mode: Option<TestMode>, targets: seq<Target>, index: nat, startPos: Option<Point>, startTime: Option<real>,
    hands: seq<Hand>, now: real, frameTimeMs: real, deviation: real, distance: real,
    precision: seq<PrecisionRecord>, edge: seq<EdgeRecord>, rapid: seq<RapidRecord>,
    precision': seq<PrecisionRecord>, edge': seq<EdgeRecord>, rapid': seq<RapidRecord>,
    index': nat, startPos': Option<Point>, startTime': Option<real>)
    requires ValidHands(hands) && (targets != [] ==> index < |targets|)
    requires startPos.Some? ==> startTime.Some?
  {
    if |hands| == 1 && mode.Some? && targets != [] && mode.value != Smoothness then
      var tip := hands[0][MiddleTip];
      var target := targets[index].center;
      match mode.value
      case Precision =>
        && precision' == precision + [PrecisionRecord(target, tip, deviation, frameTimeMs,
                                                      Closer(target, tip, PrecisionHitThreshold))]
        && edge' == edge && rapid' == rapid
        && index' == CursorTesting.NextTarget(index, |targets|) && startPos' == startPos && startTime' == startTime
      case Edge =>
        && edge' == edge + [EdgeRecord(target, tip, deviation, frameTimeMs, AtEdge(tip, screenWidth, screenHeight))]
        && precision' == precision && rapid' == rapid
        && index' == CursorTesting.NextTarget(index, |targets|) && startPos' == startPos && startTime' == startTime
      case Rapid =>
        && precision' == precision && edge' == edge
        && if startPos.None? then
             rapid' == rapid && startPos' == Some(tip) && startTime' == Some(now) && index' == index
           else
             var elapsed := (now - startTime.value) * 1000.0;
             && rapid' == rapid + [RapidRecord(startPos.value, tip, distance, elapsed, CursorTesting.SpeedOf(distance, elapsed))]
             && startPos' == None && startTime' == startTime && index' == CursorTesting.NextTarget(index, |targets|)
    else
      precision' == precision && edge' == edge && rapid' == rapid
      && index' == index && startPos' == startPos && startTime' == startTime
  }
}
