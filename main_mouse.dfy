/**
 * The plain virtual mouse: the middle fingertip moves the cursor, a fist
 * flips scrolling on every frame it is seen, the thumb-index distance
 * scrolls, thumb-pinky and thumb-ring pinches click left and right with a
 * half-second timer each, and holding both hands up for 3 s exits.
 */
module MainMouse {
  import opened Wrappers
  import opened Geometry
  import opened Landmarks
  import opened CursorMapping
  import opened ExitGesture
  import opened GestureControl

  /** A button clicks again only after more than this many seconds. */
  const ClickInterval: real := 0.5

  datatype Button = Left | Right

  /** The state the frame step reads and updates; times are on the tick clock. */
  datatype MainControl = MainControl(scrollActive: bool, lastClickTime: real, lastRightClickTime: real)

  const InitialMainControl := MainControl(true, 0.0, 0.0)

  datatype MainStepResult = MainStepResult(control: MainControl, scroll: Option<Dir>, leftClick: bool, rightClick: bool)

  function LastClick(c: MainControl, b: Button): real {
    match b
    case Left => c.lastClickTime
    case Right => c.lastRightClickTime
  }

  function Pinched(s: Signals, b: Button): bool {
    match b
    case Left => s.pinkyPinch
    case Right => s.ringPinch
  }

  function Clicked(r: MainStepResult, b: Button): bool {
    match b
    case Left => r.leftClick
    case Right => r.rightClick
  }

  /**
   * One frame with exactly one hand, at tick-clock reading `tick`: no edge
   * detection anywhere, the fist flips scrolling and the scroll zone is
   * taken with the flipped value.
   */
  function MainStep(c: MainControl, s: Signals, tick: real): MainStepResult {
    var active := if s.fist then !c.scrollActive else c.scrollActive;
    var scroll := if active then ScrollZone(s) else None;
    var left := s.pinkyPinch && tick - c.lastClickTime > ClickInterval;
    var right := s.ringPinch && tick - c.lastRightClickTime > ClickInterval;
    MainStepResult(
      MainControl(active, if left then tick else c.lastClickTime, if right then tick else c.lastRightClickTime),
      scroll, left, right)
  }

  /**
   * Each button clicks exactly when its pinch is held and more than 0.5 s
   * have passed on its own timer, which a click restarts.
   */
  lemma ClickOnOwnTimer(c: MainControl, s: Signals, tick: real, b: Button)
    ensures var r := MainStep(c, s, tick);
      && (Clicked(r, b) <==> Pinched(s, b) && tick - LastClick(c, b) > ClickInterval)
      && LastClick(r.control, b) == (if Clicked(r, b) then tick else LastClick(c, b))
  {
  }

  /** Neither button's timer or click depends on the other button's timer. */
  lemma ClickTimersIndependent(c: MainControl, s: Signals, tick: real, other: real)
    ensures var r, r' := MainStep(c, s, tick), MainStep(c.(lastClickTime := other), s, tick);
      r'.rightClick == r.rightClick && r'.control.lastRightClickTime == r.control.lastRightClickTime
    ensures var r, r' := MainStep(c, s, tick), MainStep(c.(lastRightClickTime := other), s, tick);
      r'.leftClick == r.leftClick && r'.control.lastClickTime == r.control.lastClickTime
  {
  }

  /**
   * Nothing scrolls while scrolling is off after the fist check; otherwise a
   * near thumb-index scrolls up and a far one scrolls down.
   */
  lemma ScrollOnlyWhenActive(c: MainControl, s: Signals, tick: real)
    ensures var r := MainStep(c, s, tick);
      && (!r.control.scrollActive ==> r.scroll.None?)
      && (r.control.scrollActive ==> (r.scroll == Some(Up) <==> s.near) && (r.scroll == Some(Down) <==> s.far && !s.near))
  {
  }

  /** One frame seen by the step: the hand's signals and the tick-clock reading. */
  datatype TickFrame = TickFrame(signals: Signals, tick: real)

  function MainAfter(c: MainControl, frames: seq<TickFrame>): MainControl
    decreases |frames|
  {
    if frames == [] then c
    else
      var last := frames[|frames| - 1];
      MainStep(MainAfter(c, frames[..|frames| - 1]), last.signals, last.tick).control
  }

  /**
   * A fist held over `n` frames flips scrolling `n` times: it ends where it
   * started exactly when `n` is even, so two fist frames restore it.
   */
  lemma {:induction false} FistParity(c: MainControl, frames: seq<TickFrame>)
    requires forall i :: 0 <= i < |frames| ==> frames[i].signals.fist
    ensures MainAfter(c, frames).scrollActive == (c.scrollActive == (|frames| % 2 == 0))
    decreases |frames|
  {
    if frames != [] {
      FistParity(c, frames[..|frames| - 1]);
    }
  }

  /** The tick-clock readings at which button `b` clicked during a run of frames. */
  function ClickTicks(c: MainControl, frames: seq<TickFrame>, b: Button): seq<real>
    decreases |frames|
  {
    if frames == [] then []
    else
      var last := frames[|frames| - 1];
      var prefix := frames[..|frames| - 1];
      var r := MainStep(MainAfter(c, prefix), last.signals, last.tick);
      ClickTicks(c, prefix, b) + (if Clicked(r, b) then [last.tick] else [])
  }

  /**
   * Over any run of frames each button's clicks come more than 0.5 s apart
   * on the tick clock, and its timer holds the time of its last click.
   */
  lemma {:induction false} ClicksAreSpaced(c: MainControl, frames: seq<TickFrame>, b: Button)
    ensures var ts := ClickTicks(c, frames, b);
      && (forall i :: 0 < i < |ts| ==> ts[i] - ts[i - 1] > ClickInterval)
      && (ts != [] ==> LastClick(MainAfter(c, frames), b) == ts[|ts| - 1])
      && (ts == [] ==> LastClick(MainAfter(c, frames), b) == LastClick(c, b))
      && (ts != [] ==> ts[0] - LastClick(c, b) > ClickInterval)
    decreases |frames|
  {
    if frames != [] {
      var last := frames[|frames| - 1];
      var prefix := frames[..|frames| - 1];
      ClicksAreSpaced(c, prefix, b);
      var before := MainAfter(c, prefix);
      var r := MainStep(before, last.signals, last.tick);
      ClickOnOwnTimer(before, last.signals, last.tick, b);
      var earlier := ClickTicks(c, prefix, b);
      assert MainAfter(c, frames) == r.control;
      if Clicked(r, b) {
        assert ClickTicks(c, frames, b) == earlier + [last.tick];
      } else {
        assert ClickTicks(c, frames, b) == earlier;
      }
    }
  }

  datatype MainOutput = MainOutput(
    exit: bool, countdown: Option<real>, cursor: Option<Point>, scroll: Option<Dir>, leftClick: bool, rightClick: bool)

  class MainLoop {
    const screenWidth: nat
    const screenHeight: nat
    var scrollActive: bool
    var lastClickTime: real
    var lastRightClickTime: real
    var bothHandsRaisedStart: Option<real>

    function ControlState(): MainControl
      reads this
    {
      MainControl(scrollActive, lastClickTime, lastRightClickTime)
    }

    constructor (screenWidth: nat, screenHeight: nat)
      ensures this.screenWidth == screenWidth && this.screenHeight == screenHeight
      ensures ControlState() == InitialMainControl && bothHandsRaisedStart == None
    {
      this.screenWidth := screenWidth;
      this.screenHeight := screenHeight;
      scrollActive := true;
      lastClickTime := 0.0;
      lastRightClickTime := 0.0;
      bothHandsRaisedStart := None;
    }

    /**
     * One camera frame: the exit check on the wall clock `now`, then, with
     * exactly one hand, the cursor, the fist, scrolling and the two clicks,
     * whose timers read the tick clock `tick`.
     */
    method ProcessFrame(hands: seq<Hand>, imgWidth: int, imgHeight: int, now: real, tick: real)
      returns (out: MainOutput)
      requires ValidHands(hands) && imgWidth > 0 && imgHeight > 0
      modifies this
      ensures var t := Tick(old(bothHandsRaisedStart), CheckBothHandsRaised(hands), now);
        && bothHandsRaisedStart == t.start && out.exit == t.exit
        && out.countdown == (if t.start.Some? then Some(Countdown(now - t.start.value)) else None)
      ensures out.exit || |hands| != 1 ==>
        ControlState() == old(ControlState()) && out.cursor.None? && out.scroll.None? && !out.leftClick && !out.rightClick
      ensures !out.exit && |hands| == 1 ==>
        var r := MainStep(old(ControlState()), SignalsOf(hands[0]), tick);
        && ControlState() == r.control
        && out.cursor == Some(MapToScreen(hands[0][MiddleTip], screenWidth, screenHeight, imgWidth, imgHeight))
        && out.scroll == r.scroll && out.leftClick == r.leftClick && out.rightClick == r.rightClick
    {
      out := MainOutput(false, None, None, None, false, false);
      if CheckBothHandsRaised(hands) {
        var currentTime := now;
        if bothHandsRaisedStart.None? {
          bothHandsRaisedStart := Some(currentTime);
        }
        var duration := currentTime - bothHandsRaisedStart.value;
        out := out.(countdown := Some(Countdown(duration)));
        if duration >= BothHandsRaisedDuration {
          out := out.(exit := true);
          return;
        }
      } else {
        bothHandsRaisedStart := None;
      }
      if |hands| == 1 {
        var hand := hands[0];
        var s := SignalsOf(hand);
        out := out.(cursor := Some(MapToScreen(hand[MiddleTip], screenWidth, screenHeight, imgWidth, imgHeight)));
        if s.fist {
          scrollActive := !scrollActive;
        }
        if scrollActive {
          if s.near {
            out := out.(scroll := Some(Up));
          } else if s.far {
            out := out.(scroll := Some(Down));
          }
        }
        if s.pinkyPinch {
          var currentTime := tick;
          if currentTime - lastClickTime > ClickInterval {
            out := out.(leftClick := true);
            lastClickTime := currentTime;
          }
        }
        if s.ringPinch {
          var currentTime := tick;
          if currentTime - lastRightClickTime > ClickInterval {
            out := out.(rightClick := true);
            lastRightClickTime := currentTime;
          }
        }
      }
    }
  }
}
