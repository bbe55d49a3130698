/**
 * The cursor-testing variant's main loop: the instrumented loop plus a
 * cursor-test mode that samples the middle fingertip every one-hand frame,
 * tests precision against a 3x3 grid of targets on P, and times speed runs
 * with keys 1, 2 and 3.
 */
module CursorTestingSession {
  import opened Wrappers
  import opened Geometry
  import opened Landmarks
  import opened GestureTracking
  import opened InstrumentedSession
  import opened CursorTesting

  /** The keys of this variant on top of the instrumented ones. */
  datatype CursorCommand =
    | Base(command: Command)
    | ToggleCursorMode
    | RecordPrecision
    | SmoothnessHint
    | SpeedKey(category: Speed)

  function CursorCommandOf(key: char): CursorCommand {
    if key == 'c' || key == 'C' then ToggleCursorMode
    else if key == 'p' || key == 'P' then RecordPrecision
    else if key == 'm' || key == 'M' then SmoothnessHint
    else if key == '1' then SpeedKey(Slow)
    else if key == '2' then SpeedKey(Normal)
    else if key == '3' then SpeedKey(Fast)
    else Base(CommandOf(key))
  }

  /**
   * The instrumented command a key selects, and no command for the keys of
   * this variant, which leave the instrumented state alone.
   */
  function BaseCommand(c: CursorCommand): Command {
    if c.Base? then c.command else NoCommand
  }

  /** The grid size the variant always uses. */
  const TargetGridSize: int := 3

  /** The number of targets of that grid. */
  const TargetCount: nat := 9

  lemma TargetGridHasTargetCount(width: int, height: int)
    ensures |GridRows(width, height, TargetGridSize, TargetGridSize)| == TargetCount
  {
    GridLength(width, height, TargetGridSize, TargetGridSize);
  }

  class CursorTestingLoop {
    var loop: InstrumentedLoop
    var cursorTracker: CursorTestTracker
    var cursorTestingMode: bool
    var cursorTestTargets: seq<Point>
    var currentTargetIndex: nat
    var cursorTestStartTime: Option<real>

    ghost predicate Valid()
      reads this, loop, loop.tracker, cursorTracker
    {
      && loop.Valid() && cursorTracker.Valid()
      && currentTargetIndex < TargetCount
      && (cursorTestTargets != [] ==> |cursorTestTargets| == TargetCount)
    }

    constructor (screenWidth: nat, screenHeight: nat, now: real)
      ensures Valid() && fresh(loop) && fresh(loop.tracker) && fresh(cursorTracker)
      ensures !cursorTestingMode && cursorTestTargets == [] && currentTargetIndex == 0
      ensures cursorTestStartTime == None
      ensures cursorTracker.precisionHits == [] && cursorTracker.smoothnessData == []
      ensures cursorTracker.speedData == []
    {
      loop := new InstrumentedLoop(screenWidth, screenHeight, now);
      cursorTracker := new CursorTestTracker();
      cursorTestingMode := false;
      cursorTestTargets := [];
      currentTargetIndex := 0;
      cursorTestStartTime := None;
    }

    /**
     * One camera frame: in cursor-test mode without targets the grid is
     * laid out for this image first; then the instrumented frame, and in
     * cursor-test mode a smoothness sample of the middle fingertip, in camera pixels, when
     * exactly one hand is in view and the program does not exit.
     */
    method ProcessFrame(hands: seq<Hand>, imgWidth: int, imgHeight: int, now: real,
                        responseTimeMs: real, frameTimeMs: real)
      returns (out: FrameOutput)
      requires Valid() && ValidHands(hands) && imgWidth > 0 && imgHeight > 0
      modifies this, loop, loop.tracker, cursorTracker
      ensures Valid() && loop == old(loop) && loop.tracker == old(loop.tracker)
      ensures cursorTracker == old(cursorTracker) && cursorTestingMode == old(cursorTestingMode)
      ensures currentTargetIndex == old(currentTargetIndex)
      ensures cursorTestStartTime == old(cursorTestStartTime)
      ensures cursorTestTargets ==
        if cursorTestingMode && old(cursorTestTargets) == [] then GridRows(imgWidth, imgHeight, TargetGridSize, TargetGridSize)
        else old(cursorTestTargets)
      ensures cursorTracker.precisionHits == old(cursorTracker.precisionHits)
      ensures cursorTracker.speedData == old(cursorTracker.speedData)
      ensures !out.exit && |hands| == 1 && cursorTestingMode ==>
        cursorTracker.smoothnessData ==
          Window(old(cursorTracker.smoothnessData) + [Sample(hands[0][MiddleTip], now)])
      ensures !(!out.exit && |hands| == 1 && cursorTestingMode) ==>
        cursorTracker.smoothnessData == old(cursorTracker.smoothnessData)
      ensures var t := ExitGesture.Tick(old(loop.bothHandsRaisedStart), CheckBothHandsRaised(hands), now);
        out.exit == t.exit && loop.bothHandsRaisedStart == t.start
      ensures out.exit ==>
        && loop.ControlState() == old(loop.ControlState()) && out == FrameOutput(true, None, None, false)
        && loop.tracker.Snapshot() == old(loop.tracker.Snapshot())
      ensures !out.exit && |hands| == 1 ==>
        var r := GestureControl.GestureStep(old(loop.ControlState()), SignalsOf(hands[0]), now, true);
        && loop.ControlState() == r.control
        && out == FrameOutput(false, Some(CursorMapping.MapToScreen(hands[0][MiddleTip], loop.screenWidth, loop.screenHeight,
                                                                   imgWidth, imgHeight)),
                              r.scroll, r.click)
        && loop.tracker.Snapshot() == AfterDetection(old(loop.tracker.Snapshot()), r.event, responseTimeMs, now)
          .(frameProcessingTimes := old(loop.tracker.frameProcessingTimes) + [frameTimeMs])
      ensures !out.exit && |hands| != 1 ==>
        && loop.ControlState() == old(loop.ControlState()) && out == NoOutput
        && loop.tracker.Snapshot() == old(loop.tracker.Snapshot())
          .(frameProcessingTimes := old(loop.tracker.frameProcessingTimes) + [frameTimeMs])
    {
      if cursorTestingMode && cursorTestTargets == [] {
        cursorTestTargets := GenerateTargetGrid(imgWidth, imgHeight, TargetGridSize);
        TargetGridHasTargetCount(imgWidth, imgHeight);
      }
      out := loop.ProcessFrame(hands, imgWidth, imgHeight, now, responseTimeMs, frameTimeMs);
      if !out.exit && |hands| == 1 && cursorTestingMode {
        cursorTracker.AddSmoothnessSample(hands[0][MiddleTip], now);
      }
    }

    /**
     * One key press. `hands` are the hands of the frame just processed,
     * `deviation` the distance from the current target to the middle
     * fingertip, which P records.
     */
    method HandleKey(key: char, answer: string, hands: seq<Hand>, imgWidth: int, imgHeight: int,
                     now: real, deviation: real)
      returns (quit: bool)
      requires Valid() && ValidHands(hands)
      requires CursorCommandOf(key) == RecordPrecision && cursorTestingMode && cursorTestTargets != []
               && |hands| == 1 ==>
        IsLength(deviation, cursorTestTargets[currentTargetIndex], hands[0][MiddleTip])
      modifies this, loop, loop.tracker, cursorTracker
      ensures Valid()
      ensures quit <==> CursorCommandOf(key) == Base(Quit)
      ensures CursorCommandOf(key) == ToggleCursorMode ==>
        && cursorTestingMode == !old(cursorTestingMode)
        && (cursorTestingMode ==> cursorTestTargets == GridRows(imgWidth, imgHeight, TargetGridSize, TargetGridSize)
                                  && currentTargetIndex == 0)
        && (!cursorTestingMode ==> cursorTestTargets == [] && currentTargetIndex == old(currentTargetIndex))
      ensures CursorCommandOf(key) != ToggleCursorMode ==>
        cursorTestingMode == old(cursorTestingMode) && cursorTestTargets == old(cursorTestTargets)
      ensures CursorCommandOf(key) == RecordPrecision ==>
        if old(cursorTestingMode) && old(cursorTestTargets) != [] && |hands| == 1 then
          && cursorTracker.precisionHits == old(cursorTracker.precisionHits)
               + [PrecisionHit(old(cursorTestTargets)[old(currentTargetIndex)], hands[0][MiddleTip], deviation)]
          && currentTargetIndex == NextTarget(old(currentTargetIndex), |old(cursorTestTargets)|)
        else
          cursorTracker.precisionHits == old(cursorTracker.precisionHits)
          && currentTargetIndex == old(currentTargetIndex)
      ensures CursorCommandOf(key).SpeedKey? ==>
        if old(cursorTestingMode) && old(cursorTestStartTime).Some? then
          && cursorTracker.speedData == old(cursorTracker.speedData)
               + [SpeedRecord(CursorCommandOf(key).category, 0.0, (now - old(cursorTestStartTime).value) * 1000.0,
                              SpeedOf(0.0, (now - old(cursorTestStartTime).value) * 1000.0))]
          && cursorTestStartTime == None
        else
          cursorTracker.speedData == old(cursorTracker.speedData) && cursorTestStartTime == Some(now)
      ensures !CursorCommandOf(key).SpeedKey? ==> cursorTestStartTime == old(cursorTestStartTime)
      ensures CursorCommandOf(key) == Base(ResetStats) && InstrumentedSession.Confirmed(answer) ==>
        && fresh(loop.tracker) && loop.tracker.stats == InitialStats()
        && fresh(cursorTracker) && cursorTracker.precisionHits == [] && cursorTracker.smoothnessData == []
        && cursorTracker.speedData == []
      ensures !(CursorCommandOf(key) == Base(ResetStats) && InstrumentedSession.Confirmed(answer)) ==>
        cursorTracker == old(cursorTracker) && loop.tracker == old(loop.tracker)
      ensures CursorCommandOf(key) !in {RecordPrecision, ToggleCursorMode} ==>
        currentTargetIndex == old(currentTargetIndex)
      ensures CursorCommandOf(key) != RecordPrecision
              && !(CursorCommandOf(key) == Base(ResetStats) && InstrumentedSession.Confirmed(answer)) ==>
        cursorTracker.precisionHits == old(cursorTracker.precisionHits)
      ensures !(CursorCommandOf(key) == Base(ResetStats) && InstrumentedSession.Confirmed(answer)) ==>
        cursorTracker.smoothnessData == old(cursorTracker.smoothnessData)
      ensures !CursorCommandOf(key).SpeedKey?
              && !(CursorCommandOf(key) == Base(ResetStats) && InstrumentedSession.Confirmed(answer)) ==>
        cursorTracker.speedData == old(cursorTracker.speedData)
      ensures loop == old(loop) && loop.bothHandsRaisedStart == old(loop.bothHandsRaisedStart)
      ensures loop.ControlState() == KeyControl(BaseCommand(CursorCommandOf(key)), old(loop.ControlState()))
      ensures loop.tracker.Snapshot() ==
        KeyTracker(BaseCommand(CursorCommandOf(key)), answer, now, old(loop.tracker.Snapshot()))
    {
      quit := false;
      match CursorCommandOf(key)
      case ToggleCursorMode =>
        cursorTestingMode := !cursorTestingMode;
        if cursorTestingMode {
          cursorTestTargets := GenerateTargetGrid(imgWidth, imgHeight, TargetGridSize);
          TargetGridHasTargetCount(imgWidth, imgHeight);
          currentTargetIndex := 0;
        } else {
          cursorTestTargets := [];
        }
      case RecordPrecision =>
        if cursorTestingMode && cursorTestTargets != [] && |hands| == 1 {
          var target := cursorTestTargets[currentTargetIndex];
          var _ := cursorTracker.AddPrecisionTest(target, hands[0][MiddleTip], deviation);
          currentTargetIndex := NextTarget(currentTargetIndex, |cursorTestTargets|);
        }
      case SmoothnessHint =>
      case SpeedKey(category) =>
        if cursorTestingMode && cursorTestStartTime.Some? {
          var elapsed := (now - cursorTestStartTime.value) * 1000.0;
          cursorTracker.AddSpeedTest(category, 0.0, elapsed);
          cursorTestStartTime := None;
        } else {
          cursorTestStartTime := Some(now);
        }
      case Base(command) =>
        if command == ResetStats {
          if InstrumentedSession.Confirmed(answer) {
            loop.tracker := new GestureTracker(now);
            cursorTracker := new CursorTestTracker();
          }
        } else {
          quit := loop.HandleKey(key, answer, now);
        }
    }
  }
}
