/**
 * The gesture-recognition tracker shared by the two instrumented variants:
 * per gesture kind it counts detections, operator-confirmed true and false
 * positives, reported misses, and the response time of every detection.
 */
module GestureTracking {
  import opened Wrappers
  import opened Statistics

  /** The gesture kinds, in the order the tracker lists them. */
  datatype Kind = ScrollUp | ScrollDown | Click | ToggleScroll | MoveCursor

  const Kinds: seq<Kind> := [ScrollUp, ScrollDown, Click, ToggleScroll, MoveCursor]

  lemma KindsListsEveryKindOnce()
    ensures forall k: Kind :: k in Kinds
    ensures forall i, j :: 0 <= i < j < |Kinds| ==> Kinds[i] != Kinds[j]
  {
    forall k: Kind ensures k in Kinds {
      match k
      case ScrollUp => assert Kinds[0] == k;
      case ScrollDown => assert Kinds[1] == k;
      case Click => assert Kinds[2] == k;
      case ToggleScroll => assert Kinds[3] == k;
      case MoveCursor => assert Kinds[4] == k;
    }
  }

  /** The counters and response times recorded for one kind. */
  datatype Record = Record(
    detected: nat,
    truePositive: nat,
    falsePositive: nat,
    falseNegative: nat,
    responseTimes: seq<real>)

  const EmptyRecord: Record := Record(0, 0, 0, 0, [])

  type Stats = map<Kind, Record>

  /** Every kind has a record. */
  predicate Complete(stats: Stats) {
    forall k: Kind :: k in stats
  }

  /** Every record holds one response time per detection. */
  predicate TimesMatchDetections(stats: Stats) {
    forall k :: k in stats ==> |stats[k].responseTimes| == stats[k].detected
  }

  function InitialStats(): (s: Stats)
    ensures Complete(s) && TimesMatchDetections(s)
    ensures forall k :: k in s ==> s[k] == EmptyRecord
  {
    KindsListsEveryKindOnce();
    map k: Kind | k in Kinds :: EmptyRecord
  }

  /** A detection: one more count and its response time appended. */
  function Detected(r: Record, responseTimeMs: real): Record {
    r.(detected := r.detected + 1, responseTimes := r.responseTimes + [responseTimeMs])
  }

  function ConfirmedTrue(r: Record): Record {
    r.(truePositive := r.truePositive + 1)
  }

  function ConfirmedFalse(r: Record): Record {
    r.(falsePositive := r.falsePositive + 1)
  }

  function Missed(r: Record): Record {
    r.(falseNegative := r.falseNegative + 1)
  }

  /** The judgements recorded for a kind: true and false positives and misses. */
  function Judged(r: Record): nat {
    r.truePositive + r.falsePositive + r.falseNegative
  }

  /**
   * Accuracy of one kind: the true positives as a percentage of all
   * judgements, 0 before any judgement.
   */
  function Accuracy(r: Record): (a: real)
    ensures 0.0 <= a <= 100.0
    ensures a == 0.0 <==> r.truePositive == 0
    ensures a == 100.0 <==> r.truePositive > 0 && r.falsePositive == 0 && r.falseNegative == 0
  {
    Percent(r.truePositive, Judged(r))
  }

  /** The response-time group of one kind. */
  function ResponseTimeStats(r: Record): Summary {
    Summarize(r.responseTimes)
  }

  /** A detection leaves the accuracy alone; it only waits for a judgement. */
  lemma DetectionKeepsAccuracy(r: Record, t: real)
    ensures Accuracy(Detected(r, t)) == Accuracy(r)
    ensures ResponseTimeStats(Detected(r, t)).count == ResponseTimeStats(r).count + 1
  {
  }

  /** Confirming a true positive never lowers the accuracy. */
  lemma TruePositiveRaisesAccuracy(r: Record)
    ensures Accuracy(r) <= Accuracy(ConfirmedTrue(r))
  {
    PercentHit(r.truePositive, Judged(r));
  }

  /** A false positive or a miss never raises the accuracy. */
  lemma ErrorsLowerAccuracy(r: Record)
    ensures Accuracy(ConfirmedFalse(r)) <= Accuracy(r)
    ensures Accuracy(Missed(r)) <= Accuracy(r)
  {
    PercentMiss(r.truePositive, Judged(r));
  }

  /** Sums of the counters of the kinds in `ks`. */
  function TruePositives(stats: Stats, ks: seq<Kind>): nat
    requires Complete(stats)
  {
    if ks == [] then 0 else TruePositives(stats, ks[..|ks| - 1]) + stats[ks[|ks| - 1]].truePositive
  }

  function Judgements(stats: Stats, ks: seq<Kind>): (n: nat)
    requires Complete(stats)
    ensures n >= TruePositives(stats, ks)
  {
    if ks == [] then 0 else Judgements(stats, ks[..|ks| - 1]) + Judged(stats[ks[|ks| - 1]])
  }

  /** Does some kind in `ks` satisfy `p`? Used to state the accuracy extremes. */
  predicate AnyTruePositive(stats: Stats, ks: seq<Kind>)
    requires Complete(stats)
  {
    exists i :: 0 <= i < |ks| && stats[ks[i]].truePositive > 0
  }

  predicate NoErrors(stats: Stats, ks: seq<Kind>)
    requires Complete(stats)
  {
    forall i :: 0 <= i < |ks| ==> stats[ks[i]].falsePositive == 0 && stats[ks[i]].falseNegative == 0
  }

  lemma {:induction false} TotalsZeroIff(stats: Stats, ks: seq<Kind>)
    requires Complete(stats)
    ensures TruePositives(stats, ks) == 0 <==> !AnyTruePositive(stats, ks)
    ensures Judgements(stats, ks) == TruePositives(stats, ks) <==> NoErrors(stats, ks)
    decreases |ks|
  {
    if ks != [] {
      var p := ks[..|ks| - 1];
      TotalsZeroIff(stats, p);
      assert forall i :: 0 <= i < |p| ==> p[i] == ks[i];
      if AnyTruePositive(stats, ks) && !AnyTruePositive(stats, p) {
        assert stats[ks[|ks| - 1]].truePositive > 0;
      }
      if !NoErrors(stats, ks) && NoErrors(stats, p) {
        assert Judged(stats[ks[|ks| - 1]]) > stats[ks[|ks| - 1]].truePositive;
      }
    }
  }

  /**
   * Overall accuracy: pooled true positives over pooled judgements of every
   * kind; 0 before any judgement, 100 exactly when there are true positives
   * and no false positive or miss of any kind.
   */
  function OverallAccuracy(stats: Stats): (a: real)
    requires Complete(stats)
    ensures 0.0 <= a <= 100.0
    ensures a == 0.0 <==> !AnyTruePositive(stats, Kinds)
    ensures a == 100.0 <==> AnyTruePositive(stats, Kinds) && NoErrors(stats, Kinds)
  {
    TotalsZeroIff(stats, Kinds);
    Percent(TruePositives(stats, Kinds), Judgements(stats, Kinds))
  }

  /** All response times of the kinds in `ks`, one kind after the other. */
  function AllTimes(stats: Stats, ks: seq<Kind>): seq<real>
    requires Complete(stats)
  {
    if ks == [] then [] else AllTimes(stats, ks[..|ks| - 1]) + stats[ks[|ks| - 1]].responseTimes
  }

  function Detections(stats: Stats, ks: seq<Kind>): nat
    requires Complete(stats)
  {
    if ks == [] then 0 else Detections(stats, ks[..|ks| - 1]) + stats[ks[|ks| - 1]].detected
  }

  function TimeTotal(stats: Stats, ks: seq<Kind>): real
    requires Complete(stats)
  {
    if ks == [] then 0.0 else TimeTotal(stats, ks[..|ks| - 1]) + Sum(stats[ks[|ks| - 1]].responseTimes)
  }

  /**
   * The pooled response times weigh each kind by its number of detections:
   * they are as many as all detections together and add up to the kinds'
   * own totals.
   */
  lemma {:induction false} PooledTimes(stats: Stats, ks: seq<Kind>)
    requires Complete(stats) && TimesMatchDetections(stats)
    ensures |AllTimes(stats, ks)| == Detections(stats, ks)
    ensures Sum(AllTimes(stats, ks)) == TimeTotal(stats, ks)
    decreases |ks|
  {
    if ks != [] {
      var p := ks[..|ks| - 1];
      PooledTimes(stats, p);
      SumConcat(AllTimes(stats, p), stats[ks[|ks| - 1]].responseTimes);
    }
  }

  /** The overall response time: the mean over every detection of every kind. */
  function OverallResponseTime(stats: Stats): (t: real)
    requires Complete(stats)
    ensures AllTimes(stats, Kinds) == [] ==> t == 0.0
    ensures AllTimes(stats, Kinds) != [] ==>
      Min(AllTimes(stats, Kinds)) <= t <= Max(AllTimes(stats, Kinds))
  {
    Mean(AllTimes(stats, Kinds))
  }

  /**
   * The overall response time is the total time of all detections divided by
   * their number, so a kind counts in proportion to how often it was detected.
   */
  lemma OverallResponseTimeIsPooled(stats: Stats)
    requires Complete(stats) && TimesMatchDetections(stats)
    ensures OverallResponseTime(stats) ==
      if Detections(stats, Kinds) == 0 then 0.0
      else TimeTotal(stats, Kinds) / Detections(stats, Kinds) as real
  {
    PooledTimes(stats, Kinds);
  }

  /** Every field of a tracker, as one value. */
  datatype TrackerState = TrackerState(
    stats: Stats,
    currentGesture: Option<Kind>,
    gestureDetectedTime: Option<real>,
    waitingForConfirmation: bool,
    startTime: real,
    frameProcessingTimes: seq<real>)

  /**
   * The tracker after a frame that recorded `event`, if any: the detection
   * is counted with its response time and becomes the gesture awaiting
   * confirmation.
   */
  function AfterDetection(v: TrackerState, event: Option<Kind>, responseTimeMs: real, now: real): TrackerState
    requires Complete(v.stats)
  {
    match event
    case None => v
    case Some(g) =>
      v.(stats := v.stats[g := Detected(v.stats[g], responseTimeMs)],
         currentGesture := Some(g), gestureDetectedTime := Some(now), waitingForConfirmation := true)
  }

  /**
   * A detection of `g` changes only `g`'s record, by one more detection and
   * its response time, and makes `g` the gesture awaiting a judgement; the
   * tracker stays complete with one time per detection.
   */
  lemma DetectionChangesOnlyItsKind(v: TrackerState, g: Kind, t: real, now: real)
    requires Complete(v.stats) && TimesMatchDetections(v.stats)
    ensures var w := AfterDetection(v, Some(g), t, now);
      && Complete(w.stats) && TimesMatchDetections(w.stats)
      && w.stats[g].detected == v.stats[g].detected + 1
      && w.stats[g].responseTimes == v.stats[g].responseTimes + [t]
      && Judged(w.stats[g]) == Judged(v.stats[g])
      && (forall k :: k != g ==> w.stats[k] == v.stats[k])
      && w.currentGesture == Some(g) && w.waitingForConfirmation
      && w.startTime == v.startTime && w.frameProcessingTimes == v.frameProcessingTimes
  {
  }

  /** A tracker just started at `now`. */
  function FreshTracker(now: real): TrackerState {
    TrackerState(InitialStats(), None, None, false, now, [])
  }

  /**
   * The tracker after the operator judges the current gesture a true
   * (`correct`) or a false positive; with no gesture detected yet nothing
   * changes.
   */
  function AfterJudgement(v: TrackerState, correct: bool): TrackerState
    requires Complete(v.stats)
  {
    match v.currentGesture
    case None => v
    case Some(g) =>
      v.(stats := v.stats[g := if correct then ConfirmedTrue(v.stats[g]) else ConfirmedFalse(v.stats[g])],
         waitingForConfirmation := false)
  }

  /** The tracker after the operator reports a missed gesture of kind `g`. */
  function AfterMiss(v: TrackerState, g: Kind): TrackerState
    requires Complete(v.stats)
  {
    v.(stats := v.stats[g := Missed(v.stats[g])])
  }

  /**
   * A judgement changes only the current gesture's record, by one more true
   * or false positive, and ends the wait for a judgement; which gesture is
   * current, when it was detected, the start time and the frame times stay.
   */
  lemma JudgementChangesOnlyCurrentKind(v: TrackerState, correct: bool)
    requires Complete(v.stats) && TimesMatchDetections(v.stats)
    ensures var w := AfterJudgement(v, correct);
      && Complete(w.stats) && TimesMatchDetections(w.stats)
      && w.currentGesture == v.currentGesture && w.gestureDetectedTime == v.gestureDetectedTime
      && w.startTime == v.startTime && w.frameProcessingTimes == v.frameProcessingTimes
      && (v.currentGesture.None? ==> w == v)
      && (v.currentGesture.Some? ==>
            var g := v.currentGesture.value;
            && !w.waitingForConfirmation
            && Judged(w.stats[g]) == Judged(v.stats[g]) + 1
            && w.stats[g].truePositive == v.stats[g].truePositive + (if correct then 1 else 0)
            && w.stats[g].detected == v.stats[g].detected
            && (forall k :: k != g ==> w.stats[k] == v.stats[k]))
  {
  }

  /**
   * A reported miss adds one false negative to `g`'s record and changes
   * nothing else.
   */
  lemma MissChangesOnlyItsKind(v: TrackerState, g: Kind)
    requires Complete(v.stats) && TimesMatchDetections(v.stats)
    ensures var w := AfterMiss(v, g);
      && Complete(w.stats) && TimesMatchDetections(w.stats)
      && w.stats[g].falseNegative == v.stats[g].falseNegative + 1
      && Judged(w.stats[g]) == Judged(v.stats[g]) + 1
      && w.stats[g].detected == v.stats[g].detected
      && (forall k :: k != g ==> w.stats[k] == v.stats[k])
      && w.(stats := v.stats) == v
  {
  }

  /** The tracker object the instrumented main loops update. */
  class GestureTracker {
    var stats: Stats
    var currentGesture: Option<Kind>
    var gestureDetectedTime: Option<real>
    var waitingForConfirmation: bool
    var startTime: real
    var frameProcessingTimes: seq<real>

    ghost predicate Valid()
      reads this
    {
      Complete(stats) && TimesMatchDetections(stats)
    }

    function Snapshot(): TrackerState
      reads this
    {
      TrackerState(stats, currentGesture, gestureDetectedTime, waitingForConfirmation, startTime, frameProcessingTimes)
    }

    constructor (now: real)
      ensures Valid()
      ensures stats == InitialStats()
      ensures currentGesture == None && gestureDetectedTime == None && !waitingForConfirmation
      ensures startTime == now && frameProcessingTimes == []
      ensures Snapshot() == FreshTracker(now)
    {
      stats := InitialStats();
      currentGesture := None;
      gestureDetectedTime := None;
      waitingForConfirmation := false;
      startTime := now;
      frameProcessingTimes := [];
    }

    /** Records a detection of `g` and waits for the operator's judgement. */
    method GestureDetected(g: Kind, processingTimeMs: real, now: real)
      requires Valid()
      modifies this
      ensures Valid()
      ensures Snapshot() == AfterDetection(old(Snapshot()), Some(g), processingTimeMs, now)
    {
      stats := stats[g := Detected(stats[g], processingTimeMs)];
      currentGesture := Some(g);
      gestureDetectedTime := Some(now);
      waitingForConfirmation := true;
    }

    /**
     * Counts a true positive for the last gesture detected, if any. The last
     * gesture stays current, so confirming again counts again.
     */
    method ConfirmTruePositive()
      requires Valid()
      modifies this
      ensures Valid()
      ensures Snapshot() == AfterJudgement(old(Snapshot()), true)
      ensures old(currentGesture).None? ==> stats == old(stats) && waitingForConfirmation == old(waitingForConfirmation)
      ensures old(currentGesture).Some? ==>
        var g := old(currentGesture).value;
        stats == old(stats)[g := ConfirmedTrue(old(stats)[g])] && !waitingForConfirmation
      ensures currentGesture == old(currentGesture) && gestureDetectedTime == old(gestureDetectedTime)
      ensures startTime == old(startTime) && frameProcessingTimes == old(frameProcessingTimes)
    {
      if currentGesture.Some? {
        var g := currentGesture.value;
        stats := stats[g := ConfirmedTrue(stats[g])];
        waitingForConfirmation := false;
      }
    }

    /** Counts a false positive for the last gesture detected, if any. */
    method ConfirmFalsePositive()
      requires Valid()
      modifies this
      ensures Valid()
      ensures Snapshot() == AfterJudgement(old(Snapshot()), false)
      ensures old(currentGesture).None? ==> stats == old(stats) && waitingForConfirmation == old(waitingForConfirmation)
      ensures old(currentGesture).Some? ==>
        var g := old(currentGesture).value;
        stats == old(stats)[g := ConfirmedFalse(old(stats)[g])] && !waitingForConfirmation
      ensures currentGesture == old(currentGesture) && gestureDetectedTime == old(gestureDetectedTime)
      ensures startTime == old(startTime) && frameProcessingTimes == old(frameProcessingTimes)
    {
      if currentGesture.Some? {
        var g := currentGesture.value;
        stats := stats[g := ConfirmedFalse(stats[g])];
        waitingForConfirmation := false;
      }
    }

    /** Counts a gesture of kind `g` the system failed to detect. */
    method AddFalseNegative(g: Kind)
      requires Valid()
      modifies this
      ensures Valid()
      ensures Snapshot() == AfterMiss(old(Snapshot()), g)
      ensures stats == old(stats)[g := Missed(old(stats)[g])]
      ensures currentGesture == old(currentGesture) && gestureDetectedTime == old(gestureDetectedTime)
      ensures waitingForConfirmation == old(waitingForConfirmation)
      ensures startTime == old(startTime) && frameProcessingTimes == old(frameProcessingTimes)
    {
      stats := stats[g := Missed(stats[g])];
    }

    method AddFrameProcessingTime(processingTimeMs: real)
      requires Valid()
      modifies this
      ensures Valid()
      ensures frameProcessingTimes == old(frameProcessingTimes) + [processingTimeMs]
      ensures stats == old(stats) && currentGesture == old(currentGesture)
      ensures gestureDetectedTime == old(gestureDetectedTime)
      ensures waitingForConfirmation == old(waitingForConfirmation) && startTime == old(startTime)
    {
      frameProcessingTimes := frameProcessingTimes + [processingTimeMs];
    }

    function CalculateAccuracy(g: Kind): real
      reads this
      requires Valid()
    {
      Accuracy(stats[g])
    }

    function CalculateResponseTimeStats(g: Kind): Summary
      reads this
      requires Valid()
    {
      ResponseTimeStats(stats[g])
    }

    function CalculateOverallAccuracy(): real
      reads this
      requires Valid()
    {
      OverallAccuracy(stats)
    }

    function CalculateOverallResponseTime(): real
      reads this
      requires Valid()
    {
      OverallResponseTime(stats)
    }

    /** The mean frame processing time, 0 before the first frame. */
    function CalculateAvgFrameProcessingTime(): real
      reads this
    {
      Mean(frameProcessingTimes)
    }
  }

  /**
   * One detected click confirmed twice with Y: the tracker counts two true
   * positives against a single detection.
   */
  method RepeatedConfirmation() returns (detected: nat, truePositives: nat)
    ensures detected == 1 && truePositives == 2
  {
    var t := new GestureTracker(0.0);
    t.GestureDetected(Click, 12.0, 1.0);
    t.ConfirmTruePositive();
    t.ConfirmTruePositive();
    detected := t.stats[Click].detected;
    truePositives := t.stats[Click].truePositive;
  }

  /** Y before any detection changes nothing. */
  method ConfirmationBeforeDetection() returns (judged: nat, waiting: bool)
    ensures judged == 0 && !waiting
  {
    var t := new GestureTracker(0.0);
    t.ConfirmTruePositive();
    t.ConfirmFalsePositive();
    judged := Judgements(t.stats, Kinds);
    waiting := t.waitingForConfirmation;
    assert forall k :: k in t.stats ==> t.stats[k] == EmptyRecord;
    assert Judgements(t.stats, Kinds) == 0 by {
      EmptyJudgements(t.stats, Kinds);
    }
  }

  lemma {:induction false} EmptyJudgements(stats: Stats, ks: seq<Kind>)
    requires Complete(stats) && forall k :: k in stats ==> stats[k] == EmptyRecord
    ensures Judgements(stats, ks) == 0
    decreases |ks|
  {
    if ks != [] {
      EmptyJudgements(stats, ks[..|ks| - 1]);
    }
  }
}
