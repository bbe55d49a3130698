/**
 * The debounced one-hand gesture logic shared by the instrumented variants
 * and the performance monitor: a fist edge toggles scrolling, a thumb-index
 * pinch scrolls up, a wide spread scrolls down, a thumb-pinky pinch clicks,
 * and every recorded gesture must come more than 0.5 s after the previous
 * one. The instrumented variants also record a cursor-move gesture at most
 * once a second, and gate scrolling and clicking on the all-gestures switch.
 */
module GestureControl {
  import opened Wrappers
  import opened Landmarks
  import opened GestureTracking

  const GestureCooldown: real := 0.5
  const MoveCursorInterval: real := 1.0

  datatype Dir = Up | Down

  /** The global state the gesture logic reads and updates each frame. */
  datatype Control = Control(
    scrollActive: bool,
    allGesturesActive: bool,
    prevFist: bool,
    prevScroll: Option<Dir>,
    prevClick: bool,
    lastGestureTime: real)

  /** The state at start-up, with the cooldown clock started at `now`. */
  function InitialControl(now: real): Control {
    Control(true, true, false, None, false, now)
  }

  /** The mouse actions of one frame and the gesture recorded, if any. */
  datatype StepResult = StepResult(
    control: Control,
    scroll: Option<Dir>,
    click: bool,
    event: Option<Kind>)

  /** The scroll zone of the hand: near scrolls up, far scrolls down. */
  function ScrollZone(s: Signals): Option<Dir> {
    if s.near then Some(Up) else if s.far then Some(Down) else None
  }

  function ScrollKind(d: Dir): Kind {
    match d
    case Up => ScrollUp
    case Down => ScrollDown
  }

  /**
   * One frame with exactly one hand. A gesture is recorded only when the
   * time since the previous one exceeds the cooldown; the first gesture of
   * the frame to qualify, in the order move, toggle, scroll, click, takes the
   * frame, since recording it restarts the cooldown clock. `throttleMove`
   * selects the instrumented variants' once-a-second cursor-move record.
   */
  function GestureStep(c: Control, s: Signals, now: real, throttleMove: bool): StepResult {
    var since := now - c.lastGestureTime;
    var cooled := since > GestureCooldown;
    var move := throttleMove && since > MoveCursorInterval;
    var toggle := !move && s.fist && !c.prevFist && cooled;
    var active := c.scrollActive != toggle;
    var zone := if active && c.allGesturesActive then ScrollZone(s) else None;
    var scrolled := !move && !toggle && zone.Some? && zone != c.prevScroll && cooled;
    var clicked := !move && !toggle && !scrolled
      && s.pinkyPinch && !c.prevClick && c.allGesturesActive && cooled;
    var event :=
      if move then Some(MoveCursor)
      else if toggle then Some(ToggleScroll)
      else if scrolled then Some(ScrollKind(zone.value))
      else if clicked then Some(Click)
      else None;
    var control := Control(
      active, c.allGesturesActive, s.fist, zone, s.pinkyPinch,
      if event.Some? then now else c.lastGestureTime);
    StepResult(control, zone, clicked, event)
  }

  /**
   * Recording a gesture needs the cooldown to have passed and restarts it;
   * a frame that records nothing leaves the cooldown clock alone.
   */
  lemma CooldownRespected(c: Control, s: Signals, now: real, throttleMove: bool)
    ensures var r := GestureStep(c, s, now, throttleMove);
      && (r.event.Some? ==> now - c.lastGestureTime > GestureCooldown && r.control.lastGestureTime == now)
      && (r.event.None? ==> r.control.lastGestureTime == c.lastGestureTime)
  {
  }

  /**
   * Scrolling flips exactly when a toggle is recorded, and a toggle is
   * recorded exactly on the frame the fist closes, once the cooldown has
   * passed and no cursor-move record took the frame.
   */
  lemma ToggleOnFistEdge(c: Control, s: Signals, now: real, throttleMove: bool)
    ensures var r := GestureStep(c, s, now, throttleMove);
      && (r.event == Some(ToggleScroll) <==>
          s.fist && !c.prevFist && now - c.lastGestureTime > GestureCooldown
          && !(throttleMove && now - c.lastGestureTime > MoveCursorInterval))
      && (r.control.scrollActive != c.scrollActive <==> r.event == Some(ToggleScroll))
  {
  }

  /** A fist held from the previous frame never toggles again. */
  lemma HeldFistDoesNotToggle(c: Control, s: Signals, now: real, throttleMove: bool)
    requires c.prevFist
    ensures GestureStep(c, s, now, throttleMove).event != Some(ToggleScroll)
    ensures GestureStep(c, s, now, throttleMove).control.scrollActive == c.scrollActive
  {
  }

  /**
   * A click happens only on the frame the thumb-pinky pinch closes, with all
   * gestures on, and it is always recorded.
   */
  lemma ClickOnPinchEdge(c: Control, s: Signals, now: real, throttleMove: bool)
    ensures var r := GestureStep(c, s, now, throttleMove);
      && (r.click <==> r.event == Some(Click))
      && (r.click ==> s.pinkyPinch && !c.prevClick && c.allGesturesActive
                      && now - c.lastGestureTime > GestureCooldown)
  {
  }

  /**
   * Scrolling happens on every frame the hand is in a scroll zone while
   * scrolling and all gestures are on, but is recorded only when the zone
   * differs from the previous frame's.
   */
  lemma ScrollWhileInZone(c: Control, s: Signals, now: real, throttleMove: bool)
    ensures var r := GestureStep(c, s, now, throttleMove);
      && (r.scroll == (if r.control.scrollActive && c.allGesturesActive then ScrollZone(s) else None))
      && (r.event == Some(ScrollUp) ==> r.scroll == Some(Up) && c.prevScroll != Some(Up))
      && (r.event == Some(ScrollDown) ==> r.scroll == Some(Down) && c.prevScroll != Some(Down))
  {
  }

  /** With all gestures off, the hand neither scrolls nor clicks. */
  lemma GesturesOffOnlyMoveAndToggle(c: Control, s: Signals, now: real, throttleMove: bool)
    requires !c.allGesturesActive
    ensures var r := GestureStep(c, s, now, throttleMove);
      && r.scroll.None? && !r.click
      && (r.event.Some? ==> r.event.value in {MoveCursor, ToggleScroll})
  {
  }

  /** The edge detectors remember this frame's hand for the next frame. */
  lemma EdgeStateFollowsHand(c: Control, s: Signals, now: real, throttleMove: bool)
    ensures var r := GestureStep(c, s, now, throttleMove);
      && r.control.prevFist == s.fist
      && r.control.prevClick == s.pinkyPinch
      && r.control.prevScroll == r.scroll
      && r.control.allGesturesActive == c.allGesturesActive
  {
  }

  /** Without the cursor-move record, nothing is recorded as a cursor move. */
  lemma NoMoveRecordUnthrottled(c: Control, s: Signals, now: real)
    ensures GestureStep(c, s, now, false).event != Some(MoveCursor)
  {
  }

  /** One frame seen by the gesture logic: the hand's signals and the time. */
  datatype Frame = Frame(signals: Signals, time: real)

  /** A recorded gesture and when it was recorded. */
  datatype Stamp = Stamp(kind: Kind, time: real)

  /** The control state after a run of one-hand frames. */
  function ControlAfter(c: Control, frames: seq<Frame>, throttleMove: bool): Control
    decreases |frames|
  {
    if frames == [] then c
    else
      var last := frames[|frames| - 1];
      GestureStep(ControlAfter(c, frames[..|frames| - 1], throttleMove), last.signals, last.time, throttleMove).control
  }

  /** The gestures recorded during a run of one-hand frames, in order. */
  function StampsOf(c: Control, frames: seq<Frame>, throttleMove: bool): seq<Stamp>
    decreases |frames|
  {
    if frames == [] then []
    else
      var last := frames[|frames| - 1];
      var prefix := frames[..|frames| - 1];
      var r := GestureStep(ControlAfter(c, prefix, throttleMove), last.signals, last.time, throttleMove);
      StampsOf(c, prefix, throttleMove) + (if r.event.Some? then [Stamp(r.event.value, last.time)] else [])
  }

  /**
   * Over any run of frames, every recorded gesture comes more than 0.5 s
   * after the one before it, and the cooldown clock holds the time of the
   * last one. No assumption about the clock is needed.
   */
  lemma {:induction false} RecordsAreSpaced(c: Control, frames: seq<Frame>, throttleMove: bool)
    ensures var st := StampsOf(c, frames, throttleMove);
      && (forall i :: 0 < i < |st| ==> st[i].time - st[i - 1].time > GestureCooldown)
      && (st != [] ==> ControlAfter(c, frames, throttleMove).lastGestureTime == st[|st| - 1].time)
      && (st == [] ==> ControlAfter(c, frames, throttleMove).lastGestureTime == c.lastGestureTime)
      && (st != [] ==> st[0].time - c.lastGestureTime > GestureCooldown)
    decreases |frames|
  {
    if frames != [] {
      var last := frames[|frames| - 1];
      var prefix := frames[..|frames| - 1];
      RecordsAreSpaced(c, prefix, throttleMove);
      CooldownRespected(ControlAfter(c, prefix, throttleMove), last.signals, last.time, throttleMove);
    }
  }

  /** The number of toggles among recorded gestures. */
  function Toggles(st: seq<Stamp>): nat {
    if st == [] then 0
    else Toggles(st[..|st| - 1]) + (if st[|st| - 1].kind == ToggleScroll then 1 else 0)
  }

  lemma ToggleCountOfConcat(a: seq<Stamp>, b: seq<Stamp>)
    requires |b| <= 1
    ensures Toggles(a + b) == Toggles(a) + Toggles(b)
  {
    if b == [] {
      assert a + b == a;
    } else {
      assert (a + b)[..|a + b| - 1] == a;
    }
  }

  /**
   * Keeping a fist closed over any number of frames toggles scrolling at
   * most once, and not at all when the fist was already closed before.
   */
  lemma {:induction false} HeldFistTogglesAtMostOnce(c: Control, frames: seq<Frame>, throttleMove: bool)
    requires forall i :: 0 <= i < |frames| ==> frames[i].signals.fist
    ensures Toggles(StampsOf(c, frames, throttleMove)) <= 1
    ensures c.prevFist ==> Toggles(StampsOf(c, frames, throttleMove)) == 0
    ensures frames != [] ==> ControlAfter(c, frames, throttleMove).prevFist
    decreases |frames|
  {
    if frames != [] {
      var last := frames[|frames| - 1];
      var prefix := frames[..|frames| - 1];
      HeldFistTogglesAtMostOnce(c, prefix, throttleMove);
      var before := ControlAfter(c, prefix, throttleMove);
      var r := GestureStep(before, last.signals, last.time, throttleMove);
      var tail := if r.event.Some? then [Stamp(r.event.value, last.time)] else [];
      ToggleCountOfConcat(StampsOf(c, prefix, throttleMove), tail);
      if prefix != [] {
        HeldFistDoesNotToggle(before, last.signals, last.time, throttleMove);
      }
    }
  }
}
