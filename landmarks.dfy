/**
 * The per-hand predicates that every script evaluates on the 21 landmarks:
 * the raised-hand test of the exit gesture, the fist test, and the
 * thumb-to-finger distances that drive scrolling and clicking.
 */
module Landmarks {
  import opened Geometry

  const Wrist: nat := 0
  const ThumbTip: nat := 4
  const IndexTip: nat := 8
  const MiddleTip: nat := 12
  const RingTip: nat := 16
  const PinkyTip: nat := 20

  /** Thumb, index, middle, ring and pinky fingertips, in the order checked. */
  const Fingertips: seq<nat> := [ThumbTip, IndexTip, MiddleTip, RingTip, PinkyTip]

  /** A fingertip is within this many pixels of the wrist in a fist. */
  const FistRadius: nat := 40
  /** Thumb-index distance below this scrolls up. */
  const ScrollNearDistance: nat := 50
  /** Thumb-index distance above this scrolls down. */
  const ScrollFarDistance: nat := 150
  /** Thumb-pinky (or thumb-ring) distance below this is a pinch (click). */
  const ClickDistance: nat := 30

  predicate LandmarkIndices(tips: seq<nat>) {
    forall i :: 0 <= i < |tips| ==> tips[i] < LandmarkCount
  }

  /**
   * The loop of `is_hand_raised`: it visits the fingertips in order and
   * returns false at the first one whose y is not strictly above (smaller
   * than) the wrist's.
   */
  function RaisedFrom(h: Hand, tips: seq<nat>): bool
    requires ValidHand(h) && LandmarkIndices(tips)
  {
    if tips == [] then true
    else if h[tips[0]].y >= h[Wrist].y then false
    else RaisedFrom(h, tips[1..])
  }

  function IsHandRaised(h: Hand): bool
    requires ValidHand(h)
  {
    RaisedFrom(h, Fingertips)
  }

  predicate AllAbove(h: Hand, tips: seq<nat>)
    requires ValidHand(h) && LandmarkIndices(tips)
  {
    forall i :: 0 <= i < |tips| ==> h[tips[i]].y < h[Wrist].y
  }

  lemma {:induction false} RaisedFromMeansAllAbove(h: Hand, tips: seq<nat>)
    requires ValidHand(h) && LandmarkIndices(tips)
    ensures RaisedFrom(h, tips) <==> AllAbove(h, tips)
  {
    if tips != [] {
      RaisedFromMeansAllAbove(h, tips[1..]);
      assert forall i :: 1 <= i < |tips| ==> tips[i] == tips[1..][i - 1];
    }
  }

  /** A hand is raised exactly when all five fingertips are strictly above the wrist. */
  lemma IsHandRaisedIff(h: Hand)
    requires ValidHand(h)
    ensures IsHandRaised(h) <==>
      h[ThumbTip].y < h[Wrist].y && h[IndexTip].y < h[Wrist].y && h[MiddleTip].y < h[Wrist].y &&
      h[RingTip].y < h[Wrist].y && h[PinkyTip].y < h[Wrist].y
  {
    RaisedFromMeansAllAbove(h, Fingertips);
    assert AllAbove(h, Fingertips) <==>
      h[Fingertips[0]].y < h[Wrist].y && h[Fingertips[1]].y < h[Wrist].y && h[Fingertips[2]].y < h[Wrist].y &&
      h[Fingertips[3]].y < h[Wrist].y && h[Fingertips[4]].y < h[Wrist].y;
  }

  predicate ValidHands(hands: seq<Hand>) {
    forall i :: 0 <= i < |hands| ==> ValidHand(hands[i])
  }

  /** `check_both_hands_raised`: exactly two hands, both raised. */
  function CheckBothHandsRaised(hands: seq<Hand>): bool
    requires ValidHands(hands)
  {
    if |hands| != 2 then false
    else IsHandRaised(hands[0]) && IsHandRaised(hands[1])
  }

  /** The exit pose is seen iff there are exactly two hands and every fingertip of each is above its wrist. */
  lemma BothHandsRaisedIff(hands: seq<Hand>)
    requires ValidHands(hands)
    ensures CheckBothHandsRaised(hands) <==>
      |hands| == 2 && forall k :: 0 <= k < 2 ==> AllAbove(hands[k], Fingertips)
  {
    if |hands| == 2 {
      RaisedFromMeansAllAbove(hands[0], Fingertips);
      RaisedFromMeansAllAbove(hands[1], Fingertips);
    }
  }

  predicate FingertipsClose(h: Hand, tips: seq<nat>)
    requires ValidHand(h) && LandmarkIndices(tips)
  {
    forall i :: 0 <= i < |tips| ==> Closer(h[tips[i]], h[Wrist], FistRadius)
  }

  /** The fist test: every fingertip strictly within 40 px of the wrist. */
  predicate IsFist(h: Hand)
    requires ValidHand(h)
  {
    FingertipsClose(h, Fingertips)
  }

  /**
   * With the five fingertip-to-wrist lengths that `math.hypot` computes,
   * the fist test holds iff every length is strictly below 40; a fingertip
   * at exactly 40 px is not in the fist.
   */
  lemma {:induction false} IsFistIff(h: Hand, lengths: seq<real>)
    requires ValidHand(h) && |lengths| == |Fingertips|
    requires forall i :: 0 <= i < |Fingertips| ==> IsLength(lengths[i], h[Fingertips[i]], h[Wrist])
    ensures IsFist(h) <==> forall i :: 0 <= i < |lengths| ==> lengths[i] < FistRadius as real
  {
    forall i | 0 <= i < |Fingertips|
      ensures lengths[i] < FistRadius as real <==> Closer(h[Fingertips[i]], h[Wrist], FistRadius)
    {
      LengthComparisons(lengths[i], h[Fingertips[i]], h[Wrist], FistRadius);
    }
  }

  /** What one frame's controlling hand signals to the gesture logic. */
  datatype Signals = Signals(
    fist: bool,         // every fingertip within 40 px of the wrist
    near: bool,         // thumb-index < 50 px
    far: bool,          // thumb-index > 150 px
    pinkyPinch: bool,   // thumb-pinky < 30 px
    ringPinch: bool)    // thumb-ring < 30 px

  function SignalsOf(h: Hand): (s: Signals)
    requires ValidHand(h)
    ensures !(s.near && s.far)
  {
    var dIndex := SqDist(h[IndexTip], h[ThumbTip]);
    Signals(
      IsFist(h),
      dIndex < ScrollNearDistance * ScrollNearDistance,
      dIndex > ScrollFarDistance * ScrollFarDistance,
      Closer(h[PinkyTip], h[ThumbTip], ClickDistance),
      Closer(h[RingTip], h[ThumbTip], ClickDistance))
  }

  /**
   * The scroll dead zone: a thumb-index length of 50 px or of 150 px, or any
   * length between them, is neither near nor far.
   */
  lemma {:induction false} ScrollDeadZone(h: Hand, d: real)
    requires ValidHand(h) && IsLength(d, h[IndexTip], h[ThumbTip])
    ensures SignalsOf(h).near <==> d < ScrollNearDistance as real
    ensures SignalsOf(h).far <==> d > ScrollFarDistance as real
    ensures ScrollNearDistance as real <= d <= ScrollFarDistance as real ==> !SignalsOf(h).near && !SignalsOf(h).far
  {
    LengthComparisons(d, h[IndexTip], h[ThumbTip], ScrollNearDistance);
    LengthComparisons(d, h[IndexTip], h[ThumbTip], ScrollFarDistance);
  }
}
