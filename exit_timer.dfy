/**
 * The exit gesture: both hands raised, held continuously for 3 seconds.
 * The start time is taken on the first frame of the pose and dropped on
 * any frame without it, so partial holds never add up.
 */
module ExitGesture {
  import opened Wrappers

  const BothHandsRaisedDuration: real := 3.0

  /** The timer after one frame, and whether this frame ends the program. */
  datatype TimerStep = TimerStep(start: Option<real>, exit: bool)

  /** One frame of the exit check, given whether both hands are raised now. */
  function Tick(start: Option<real>, raised: bool, now: real): TimerStep
  {
    if raised then
      var s := if start.None? then now else start.value;
      TimerStep(Some(s), now - s >= BothHandsRaisedDuration)
    else
      TimerStep(None, false)
  }

  /** The on-screen countdown of main.py, `max(0, 3.0 - duration)`. */
  function Countdown(duration: real): (c: real)
    ensures c >= 0.0
    ensures c == 0.0 <==> duration >= BothHandsRaisedDuration
    ensures duration >= 0.0 ==> c <= BothHandsRaisedDuration
  {
    if BothHandsRaisedDuration - duration > 0.0 then BothHandsRaisedDuration - duration else 0.0
  }

  /** One observed frame: whether the exit pose was seen, and when. */
  datatype Sample = Sample(raised: bool, time: real)

  /** The timer after a whole history of frames, starting unset. */
  function TimerAfter(hist: seq<Sample>): Option<real>
    decreases |hist|
  {
    if hist == [] then None
    else
      var last := hist[|hist| - 1];
      Tick(TimerAfter(hist[..|hist| - 1]), last.raised, last.time).start
  }

  /** Whether the last frame of the history ends the program. */
  function ExitFires(hist: seq<Sample>): bool
    requires hist != []
  {
    var last := hist[|hist| - 1];
    Tick(TimerAfter(hist[..|hist| - 1]), last.raised, last.time).exit
  }

  /** Frame `k` starts the unbroken run of raised frames that ends the history. */
  predicate HeldSince(hist: seq<Sample>, k: nat) {
    && k < |hist|
    && (forall j :: k <= j < |hist| ==> hist[j].raised)
    && (k > 0 ==> !hist[k - 1].raised)
  }

  /**
   * The timer always holds the time of the first frame of the current
   * unbroken hold, and is unset right after any frame without the pose.
   */
  lemma {:induction false} TimerIsStartOfHold(hist: seq<Sample>, k: nat)
    requires HeldSince(hist, k)
    ensures TimerAfter(hist) == Some(hist[k].time)
    decreases |hist|
  {
    var prefix := hist[..|hist| - 1];
    if k == |hist| - 1 {
      assert TimerAfter(prefix) == None by {
        if k > 0 {
          assert prefix[..|prefix| - 1] == hist[..k - 1];
        } else {
          assert prefix == [];
        }
      }
    } else {
      assert HeldSince(prefix, k);
      TimerIsStartOfHold(prefix, k);
    }
  }

  lemma TimerClearedByRelease(hist: seq<Sample>)
    requires hist != [] && !hist[|hist| - 1].raised
    ensures TimerAfter(hist) == None
    ensures !ExitFires(hist)
  {
  }

  /**
   * The program exits on a frame exactly when the pose has been held without
   * a break for at least 3 seconds up to that frame; a hold that was broken
   * earlier contributes nothing.
   */
  lemma {:induction false} ExitIffHeldLongEnough(hist: seq<Sample>, k: nat)
    requires HeldSince(hist, k)
    ensures ExitFires(hist) <==> hist[|hist| - 1].time - hist[k].time >= BothHandsRaisedDuration
  {
    var prefix := hist[..|hist| - 1];
    if k == |hist| - 1 {
      assert TimerAfter(prefix) == None by {
        if k > 0 {
          assert !prefix[|prefix| - 1].raised;
        } else {
          assert prefix == [];
        }
      }
    } else {
      assert HeldSince(prefix, k);
      TimerIsStartOfHold(prefix, k);
    }
  }
}
