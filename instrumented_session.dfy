/**
 * The main loop of the instrumented virtual mouse: each frame runs the exit
 * gesture check, then, with exactly one hand in view, moves the cursor to
 * the middle fingertip and runs the debounced gestures, recording every
 * gesture with its response time; the frame's processing time is recorded
 * last. The operator's keys confirm or refute detections and switch
 * features on and off.
 */
module InstrumentedSession {
  import opened Wrappers
  import opened Geometry
  import opened Landmarks
  import opened CursorMapping
  import opened ExitGesture
  import opened GestureTracking
  import opened GestureControl

  /** What a frame does to the mouse, and whether the program ends. */
  datatype FrameOutput = FrameOutput(exit: bool, cursor: Option<Point>, scroll: Option<Dir>, click: bool)

  const NoOutput: FrameOutput := FrameOutput(false, None, None, false)

  /** The operator's keys; either case of a letter selects the same command. */
  datatype Command =
    | ConfirmTrue | ConfirmFalse | ReportMiss | ShowStats | ResetStats
    | ToggleScrollKey | ToggleAllGestures | Quit | NoCommand

  function CommandOf(key: char): Command {
    if key == 'y' || key == 'Y' then ConfirmTrue
    else if key == 'n' || key == 'N' then ConfirmFalse
    else if key == 'f' || key == 'F' then ReportMiss
    else if key == 's' || key == 'S' then ShowStats
    else if key == 'r' || key == 'R' then ResetStats
    else if key == 't' || key == 'T' then ToggleScrollKey
    else if key == 'w' || key == 'W' then ToggleAllGestures
    else if key == 'q' || key == 'Q' then Quit
    else NoCommand
  }

  /** The gesture the operator names after F: answers 1 to 5, in menu order. */
  function MissedKind(answer: string): (k: Option<Kind>)
    ensures k.Some? <==> answer in {"1", "2", "3", "4", "5"}
    ensures k.Some? ==> k.value == Kinds[(answer[0] as int) - ('1' as int)]
  {
    if answer == "1" then Some(ScrollUp)
    else if answer == "2" then Some(ScrollDown)
    else if answer == "3" then Some(Click)
    else if answer == "4" then Some(ToggleScroll)
    else if answer == "5" then Some(MoveCursor)
    else None
  }

  /** The reset prompt accepts y in either case. */
  predicate Confirmed(answer: string) {
    answer == "y" || answer == "Y"
  }

  /**
   * The gesture state after a key: T flips scrolling, W flips all gestures,
   * and no key touches the previous states or the last gesture time.
   */
  function KeyControl(cmd: Command, c: Control): Control {
    match cmd
    case ToggleScrollKey => c.(scrollActive := !c.scrollActive)
    case ToggleAllGestures => c.(allGesturesActive := !c.allGesturesActive)
    case _ => c
  }

  /**
   * The tracker after a key: Y and N judge the current gesture, F with an
   * answer from the menu records a miss, a confirmed R starts a fresh
   * tracker at `now`, and every other key leaves it alone.
   */
  function KeyTracker(cmd: Command, answer: string, now: real, v: TrackerState): TrackerState
    requires Complete(v.stats)
  {
    match cmd
    case ConfirmTrue => AfterJudgement(v, true)
    case ConfirmFalse => AfterJudgement(v, false)
    case ReportMiss => if MissedKind(answer).Some? then AfterMiss(v, MissedKind(answer).value) else v
    case ResetStats => if Confirmed(answer) then FreshTracker(now) else v
    case _ => v
  }

  /** Only T and W change the gesture state, each flipping its own switch. */
  lemma KeyControlFlipsOnlyItsSwitch(cmd: Command, c: Control)
    ensures var d := KeyControl(cmd, c);
      && (d.scrollActive != c.scrollActive <==> cmd == ToggleScrollKey)
      && (d.allGesturesActive != c.allGesturesActive <==> cmd == ToggleAllGestures)
      && d.(scrollActive := c.scrollActive, allGesturesActive := c.allGesturesActive) == c
  {
  }

  /**
   * What a key does to the tracker: outside a confirmed reset, the current
   * gesture, its detection time, the start time and the frame times stay;
   * the wait for a judgement ends exactly when Y or N judges a current
   * gesture; the statistics change only on Y or N with a current gesture and
   * on F with a menu answer, and stay complete with one time per detection.
   */
  lemma KeyTrackerEffects(cmd: Command, answer: string, now: real, v: TrackerState)
    requires Complete(v.stats) && TimesMatchDetections(v.stats)
    ensures var w := KeyTracker(cmd, answer, now, v);
      && Complete(w.stats) && TimesMatchDetections(w.stats)
      && (cmd == ResetStats && Confirmed(answer) ==> w == FreshTracker(now))
      && (!(cmd == ResetStats && Confirmed(answer)) ==>
            && w.currentGesture == v.currentGesture && w.gestureDetectedTime == v.gestureDetectedTime
            && w.startTime == v.startTime && w.frameProcessingTimes == v.frameProcessingTimes
            && (w.waitingForConfirmation <==>
                  v.waitingForConfirmation && !(cmd in {ConfirmTrue, ConfirmFalse} && v.currentGesture.Some?))
            && (w.stats != v.stats ==>
                  (cmd in {ConfirmTrue, ConfirmFalse} && v.currentGesture.Some?)
                  || (cmd == ReportMiss && MissedKind(answer).Some?)))
  {
    match cmd
    case ConfirmTrue => JudgementChangesOnlyCurrentKind(v, true);
    case ConfirmFalse => JudgementChangesOnlyCurrentKind(v, false);
    case ReportMiss =>
      if MissedKind(answer).Some? {
        MissChangesOnlyItsKind(v, MissedKind(answer).value);
      }
    case _ =>
  }

  class InstrumentedLoop {
    const screenWidth: nat
    const screenHeight: nat
    var tracker: GestureTracker
    var bothHandsRaisedStart: Option<real>
    var scrollActive: bool
    var allGesturesActive: bool
    var prevFist: bool
    var prevScroll: Option<Dir>
    var prevClick: bool
    var lastGestureTime: real

    ghost predicate Valid()
      reads this, tracker
    {
      tracker.Valid()
    }

    /** The gesture state as the gesture logic sees it. */
    function ControlState(): Control
      reads this
    {
      Control(scrollActive, allGesturesActive, prevFist, prevScroll, prevClick, lastGestureTime)
    }

    constructor (screenWidth: nat, screenHeight: nat, now: real)
      ensures Valid() && fresh(tracker)
      ensures this.screenWidth == screenWidth && this.screenHeight == screenHeight
      ensures tracker.stats == InitialStats() && tracker.frameProcessingTimes == []
      ensures bothHandsRaisedStart == None
      ensures ControlState() == InitialControl(now)
    {
      this.screenWidth := screenWidth;
      this.screenHeight := screenHeight;
      tracker := new GestureTracker(now);
      bothHandsRaisedStart := None;
      scrollActive := true;
      allGesturesActive := true;
      prevFist := false;
      prevScroll := None;
      prevClick := false;
      lastGestureTime := now;
    }

    /** The exit gesture check that opens every frame. */
    method CheckExit(hands: seq<Hand>, now: real) returns (exit: bool)
      requires ValidHands(hands)
      modifies this
      ensures var t := Tick(old(bothHandsRaisedStart), CheckBothHandsRaised(hands), now);
        bothHandsRaisedStart == t.start && exit == t.exit
      ensures ControlState() == old(ControlState()) && tracker == old(tracker)
    {
      exit := false;
      if CheckBothHandsRaised(hands) {
        if bothHandsRaisedStart.None? {
          bothHandsRaisedStart := Some(now);
        }
        var elapsed := now - bothHandsRaisedStart.value;
        var remaining := BothHandsRaisedDuration - elapsed;
        if remaining <= 0.0 {
          exit := true;
        }
      } else {
        bothHandsRaisedStart := None;
      }
    }

    /** The once-a-second cursor-move record. */
    method MoveStep(now: real, responseTimeMs: real) returns (moved: bool)
      requires Valid()
      modifies this, tracker
      ensures Valid() && tracker == old(tracker) && bothHandsRaisedStart == old(bothHandsRaisedStart)
      ensures moved == (now - old(lastGestureTime) > MoveCursorInterval)
      ensures ControlState() == old(ControlState()).(lastGestureTime := if moved then now else old(lastGestureTime))
      ensures tracker.Snapshot() ==
        AfterDetection(old(tracker.Snapshot()), if moved then Some(MoveCursor) else None, responseTimeMs, now)
    {
      moved := now - lastGestureTime > MoveCursorInterval;
      if moved {
        tracker.GestureDetected(MoveCursor, responseTimeMs, now);
        lastGestureTime := now;
      }
    }

    /** A fist closing, after the cooldown, toggles scrolling. */
    method ToggleStep(s: Signals, now: real, responseTimeMs: real) returns (toggled: bool)
      requires Valid()
      modifies this, tracker
      ensures Valid() && tracker == old(tracker) && bothHandsRaisedStart == old(bothHandsRaisedStart)
      ensures toggled == (s.fist && !old(prevFist) && now - old(lastGestureTime) > GestureCooldown)
      ensures ControlState() == old(ControlState()).(
        scrollActive := old(scrollActive) != toggled, prevFist := s.fist,
        lastGestureTime := if toggled then now else old(lastGestureTime))
      ensures tracker.Snapshot() ==
        AfterDetection(old(tracker.Snapshot()), if toggled then Some(ToggleScroll) else None, responseTimeMs, now)
    {
      toggled := false;
      if s.fist && !prevFist {
        if now - lastGestureTime > GestureCooldown {
          scrollActive := !scrollActive;
          tracker.GestureDetected(ToggleScroll, responseTimeMs, now);
          lastGestureTime := now;
          toggled := true;
        }
      }
      prevFist := s.fist;
    }

    /** Scrolling in the hand's zone, recorded when the zone changes. */
    method ScrollStep(s: Signals, now: real, responseTimeMs: real) returns (zone: Option<Dir>, scrolled: bool)
      requires Valid()
      modifies this, tracker
      ensures Valid() && tracker == old(tracker) && bothHandsRaisedStart == old(bothHandsRaisedStart)
      ensures zone == if old(scrollActive) && old(allGesturesActive) then ScrollZone(s) else None
      ensures scrolled == (zone.Some? && zone != old(prevScroll) && now - old(lastGestureTime) > GestureCooldown)
      ensures ControlState() == old(ControlState()).(
        prevScroll := zone, lastGestureTime := if scrolled then now else old(lastGestureTime))
      ensures tracker.Snapshot() ==
        AfterDetection(old(tracker.Snapshot()), if scrolled then Some(ScrollKind(zone.value)) else None,
                       responseTimeMs, now)
    {
      zone := None;
      scrolled := false;
      if scrollActive && allGesturesActive {
        if s.near {
          zone := Some(Up);
          if prevScroll != Some(Up) {
            if now - lastGestureTime > GestureCooldown {
              tracker.GestureDetected(ScrollUp, responseTimeMs, now);
              lastGestureTime := now;
              scrolled := true;
            }
          }
        } else if s.far {
          zone := Some(Down);
          if prevScroll != Some(Down) {
            if now - lastGestureTime > GestureCooldown {
              tracker.GestureDetected(ScrollDown, responseTimeMs, now);
              lastGestureTime := now;
              scrolled := true;
            }
          }
        }
      }
      prevScroll := zone;
    }

    /** A thumb-pinky pinch closing, with all gestures on, clicks. */
    method ClickStep(s: Signals, now: real, responseTimeMs: real) returns (clicked: bool)
      requires Valid()
      modifies this, tracker
      ensures Valid() && tracker == old(tracker) && bothHandsRaisedStart == old(bothHandsRaisedStart)
      ensures clicked == (s.pinkyPinch && !old(prevClick) && old(allGesturesActive)
                          && now - old(lastGestureTime) > GestureCooldown)
      ensures ControlState() == old(ControlState()).(
        prevClick := s.pinkyPinch, lastGestureTime := if clicked then now else old(lastGestureTime))
      ensures tracker.Snapshot() ==
        AfterDetection(old(tracker.Snapshot()), if clicked then Some(Click) else None, responseTimeMs, now)
    {
      clicked := false;
      var clickState := s.pinkyPinch;
      if clickState && !prevClick && allGesturesActive {
        if now - lastGestureTime > GestureCooldown {
          clicked := true;
          tracker.GestureDetected(Click, responseTimeMs, now);
          lastGestureTime := now;
        }
      }
      prevClick := clickState;
    }

    /** The gestures of a frame with exactly one hand. */
    method HandStep(hand: Hand, imgWidth: int, imgHeight: int, now: real, responseTimeMs: real)
      returns (out: FrameOutput)
      requires Valid() && ValidHand(hand) && imgWidth > 0 && imgHeight > 0
      modifies this, tracker
      ensures Valid() && tracker == old(tracker)
      ensures bothHandsRaisedStart == old(bothHandsRaisedStart)
      ensures var r := GestureStep(old(ControlState()), SignalsOf(hand), now, true);
        && ControlState() == r.control
        && out == FrameOutput(false, Some(MapToScreen(hand[MiddleTip], screenWidth, screenHeight, imgWidth, imgHeight)),
                              r.scroll, r.click)
        && tracker.Snapshot() == AfterDetection(old(tracker.Snapshot()), r.event, responseTimeMs, now)
    {
      var s := SignalsOf(hand);
      var cursor := MapToScreen(hand[MiddleTip], screenWidth, screenHeight, imgWidth, imgHeight);
      var moved := MoveStep(now, responseTimeMs);
      var toggled := ToggleStep(s, now, responseTimeMs);
      var zone, scrolled := ScrollStep(s, now, responseTimeMs);
      var clicked := ClickStep(s, now, responseTimeMs);
      out := FrameOutput(false, Some(cursor), zone, clicked);
    }

    /**
     * One camera frame. `now` is the frame's clock reading, `responseTimeMs`
     * the time from the start of the frame to a gesture's recording, and
     * `frameTimeMs` the whole frame's processing time.
     */
    method ProcessFrame(hands: seq<Hand>, imgWidth: int, imgHeight: int, now: real,
                        responseTimeMs: real, frameTimeMs: real)
      returns (out: FrameOutput)
      requires Valid() && ValidHands(hands) && imgWidth > 0 && imgHeight > 0
      modifies this, tracker
      ensures Valid() && tracker == old(tracker)
      ensures var t := Tick(old(bothHandsRaisedStart), CheckBothHandsRaised(hands), now);
        bothHandsRaisedStart == t.start && out.exit == t.exit
      ensures out.exit ==>
        && ControlState() == old(ControlState()) && out == FrameOutput(true, None, None, false)
        && tracker.Snapshot() == old(tracker.Snapshot())
      ensures !out.exit && |hands| == 1 ==>
        var r := GestureStep(old(ControlState()), SignalsOf(hands[0]), now, true);
        && ControlState() == r.control
        && out == FrameOutput(false, Some(MapToScreen(hands[0][MiddleTip], screenWidth, screenHeight, imgWidth, imgHeight)),
                              r.scroll, r.click)
        && tracker.Snapshot() == AfterDetection(old(tracker.Snapshot()), r.event, responseTimeMs, now)
          .(frameProcessingTimes := old(tracker.frameProcessingTimes) + [frameTimeMs])
      ensures !out.exit && |hands| != 1 ==>
        && ControlState() == old(ControlState()) && out == NoOutput
        && tracker.Snapshot() == old(tracker.Snapshot())
          .(frameProcessingTimes := old(tracker.frameProcessingTimes) + [frameTimeMs])
    {
      var exit := CheckExit(hands, now);
      if exit {
        return FrameOutput(true, None, None, false);
      }
      out := NoOutput;
      if |hands| == 1 {
        out := HandStep(hands[0], imgWidth, imgHeight, now, responseTimeMs);
      }
      tracker.AddFrameProcessingTime(frameTimeMs);
    }

    /**
     * One key press. `answer` is the operator's reply to the prompt that F
     * and R open.
     */
    method HandleKey(key: char, answer: string, now: real) returns (quit: bool)
      requires Valid()
      modifies this, tracker
      ensures Valid()
      ensures quit <==> CommandOf(key) == Quit
      ensures ControlState() == KeyControl(CommandOf(key), old(ControlState()))
      ensures bothHandsRaisedStart == old(bothHandsRaisedStart)
      ensures tracker.Snapshot() == KeyTracker(CommandOf(key), answer, now, old(tracker.Snapshot()))
      ensures CommandOf(key) == ResetStats && Confirmed(answer) ==> fresh(tracker)
      ensures !(CommandOf(key) == ResetStats && Confirmed(answer)) ==> tracker == old(tracker)
    {
      quit := false;
      match CommandOf(key)
      case ConfirmTrue => tracker.ConfirmTruePositive();
      case ConfirmFalse => tracker.ConfirmFalsePositive();
      case ReportMiss =>
        var missed := MissedKind(answer);
        if missed.Some? {
          tracker.AddFalseNegative(missed.value);
        }
      case ShowStats =>
      case ResetStats =>
        if Confirmed(answer) {
          tracker := new GestureTracker(now);
        }
      case ToggleScrollKey => scrollActive := !scrollActive;
      case ToggleAllGestures => allGesturesActive := !allGesturesActive;
      case Quit => quit := true;
      case NoCommand =>
    }
  }
}
