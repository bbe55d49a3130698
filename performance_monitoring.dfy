/**
 * The performance monitor: frames are counted and turned into a
 * frames-per-second sample, with CPU and memory readings, at most once a
 * second; gesture response times are collected; and the statistics report
 * average, minimum and maximum of each group.
 */
module PerformanceMonitoring {
  import opened Statistics

  /** An FPS sample is taken once at least this many seconds have passed. */
  const FpsInterval: real := 1.0

  /** The monitor's fields. */
  datatype Monitor = Monitor(
    startTime: real,
    frameCount: nat,
    fpsList: seq<real>,
    cpuList: seq<real>,
    memoryList: seq<real>,
    responseTimes: seq<real>,
    lastFpsTime: real,
    currentFps: real)

  function InitialMonitor(now: real): Monitor {
    Monitor(now, 0, [], [], [], [], now, 0.0)
  }

  /**
   * What the monitor keeps true: the three per-second lists grow together,
   * every FPS sample is positive, and the current FPS is the latest sample.
   */
  ghost predicate Consistent(m: Monitor) {
    && |m.cpuList| == |m.fpsList| && |m.memoryList| == |m.fpsList|
    && (forall i :: 0 <= i < |m.fpsList| ==> m.fpsList[i] > 0.0)
    && m.currentFps == (if m.fpsList == [] then 0.0 else m.fpsList[|m.fpsList| - 1])
  }

  /**
   * `update_frame`, with the clock reading and the CPU and memory readings
   * passed in. Once a second has passed since the last sample the frames
   * counted since then, this one included, are divided by the elapsed time.
   */
  function AfterFrame(m: Monitor, now: real, cpuPercent: real, memoryMb: real): (r: Monitor)
    ensures now - m.lastFpsTime < FpsInterval ==> r == m.(frameCount := m.frameCount + 1)
    ensures now - m.lastFpsTime >= FpsInterval ==>
      && r.currentFps * (now - m.lastFpsTime) == (m.frameCount + 1) as real
      && 0.0 < r.currentFps <= (m.frameCount + 1) as real
      && r == m.(frameCount := 0, fpsList := m.fpsList + [r.currentFps], cpuList := m.cpuList + [cpuPercent],
                 memoryList := m.memoryList + [memoryMb], lastFpsTime := now, currentFps := r.currentFps)
  {
    var count := m.frameCount + 1;
    var elapsed := now - m.lastFpsTime;
    if elapsed >= FpsInterval then
      var fps := count as real / elapsed;
      FpsBounds(count, elapsed);
      m.(frameCount := 0, fpsList := m.fpsList + [fps], cpuList := m.cpuList + [cpuPercent],
         memoryList := m.memoryList + [memoryMb], lastFpsTime := now, currentFps := fps)
    else m.(frameCount := count)
  }

  lemma FpsBounds(count: nat, elapsed: real)
    requires count >= 1 && elapsed >= 1.0
    ensures (count as real / elapsed) * elapsed == count as real
    ensures 0.0 < count as real / elapsed <= count as real
  {
    var fps := count as real / elapsed;
    assert fps * elapsed == count as real;
    assert fps > 0.0;
    assert fps * (elapsed - 1.0) >= 0.0;
  }

  /** `add_response_time`: appends to the response times and nothing else. */
  function AfterResponse(m: Monitor, responseTime: real): (r: Monitor)
    ensures r.responseTimes == m.responseTimes + [responseTime]
    ensures r.(responseTimes := m.responseTimes) == m
  {
    m.(responseTimes := m.responseTimes + [responseTime])
  }

  lemma InitialConsistent(now: real)
    ensures Consistent(InitialMonitor(now))
  {
  }

  /** Both updates keep the monitor consistent. */
  lemma UpdatesKeepConsistent(m: Monitor, now: real, cpuPercent: real, memoryMb: real, responseTime: real)
    requires Consistent(m)
    ensures Consistent(AfterFrame(m, now, cpuPercent, memoryMb))
    ensures Consistent(AfterResponse(m, responseTime))
  {
    var r := AfterFrame(m, now, cpuPercent, memoryMb);
    if now - m.lastFpsTime >= FpsInterval {
      assert forall i :: 0 <= i < |m.fpsList| ==> r.fpsList[i] == m.fpsList[i];
    }
  }

  /**
   * The response-time group in milliseconds: the stored seconds values'
   * mean, least and greatest, each multiplied by 1000, or all zeros.
   */
  function ResponseGroup(times: seq<real>): (g: Summary)
    ensures times == [] ==> g == Summary(0.0, 0.0, 0.0, 0)
    ensures times != [] ==>
      && g.average == Mean(times) * 1000.0 && g.minimum == Min(times) * 1000.0 && g.maximum == Max(times) * 1000.0
      && g.minimum <= g.average <= g.maximum && g.count == |times|
  {
    if times == [] then Summary(0.0, 0.0, 0.0, 0)
    else Summary(Mean(times) * 1000.0, Min(times) * 1000.0, Max(times) * 1000.0, |times|)
  }

  datatype PerformanceStats = PerformanceStats(
    durationSeconds: real,
    durationMinutes: real,
    fps: Summary,
    cpu: Summary,
    memoryMb: Summary,
    responseTimeMs: Summary)

  /**
   * `get_statistics` at clock reading `now`. Each group is all zeros when
   * its list is empty and otherwise runs from the least to the greatest
   * sample with the mean between them; response times are reported in
   * milliseconds.
   */
  function StatisticsOf(m: Monitor, now: real): (r: PerformanceStats)
    ensures r.durationSeconds == now - m.startTime && r.durationMinutes * 60.0 == r.durationSeconds
    ensures r.fps == Summarize(m.fpsList) && r.cpu == Summarize(m.cpuList) && r.memoryMb == Summarize(m.memoryList)
    ensures r.responseTimeMs == ResponseGroup(m.responseTimes)
  {
    var duration := now - m.startTime;
    PerformanceStats(duration, duration / 60.0, Summarize(m.fpsList), Summarize(m.cpuList),
                     Summarize(m.memoryList), ResponseGroup(m.responseTimes))
  }

  /** Every reported FPS figure of a consistent monitor with samples is positive. */
  lemma FpsFiguresPositive(m: Monitor, now: real)
    requires Consistent(m) && m.fpsList != []
    ensures var g := StatisticsOf(m, now).fps; g.minimum > 0.0 && g.average > 0.0 && g.maximum > 0.0
  {
    var g := Summarize(m.fpsList);
    var i :| 0 <= i < |m.fpsList| && m.fpsList[i] == g.minimum;
  }

  class PerformanceMonitor {
    var startTime: real
    var frameCount: nat
    var fpsList: seq<real>
    var cpuList: seq<real>
    var memoryList: seq<real>
    var responseTimes: seq<real>
    var lastFpsTime: real
    var currentFps: real

    function Snapshot(): Monitor
      reads this
    {
      Monitor(startTime, frameCount, fpsList, cpuList, memoryList, responseTimes, lastFpsTime, currentFps)
    }

    ghost predicate Valid()
      reads this
    {
      Consistent(Snapshot())
    }

    constructor (now: real)
      ensures Valid() && Snapshot() == InitialMonitor(now)
    {
      startTime := now;
      frameCount := 0;
      fpsList := [];
      cpuList := [];
      memoryList := [];
      responseTimes := [];
      lastFpsTime := now;
      currentFps := 0.0;
    }

    method UpdateFrame(now: real, cpuPercent: real, memoryMb: real)
      requires Valid()
      modifies this
      ensures Valid() && Snapshot() == AfterFrame(old(Snapshot()), now, cpuPercent, memoryMb)
    {
      UpdatesKeepConsistent(Snapshot(), now, cpuPercent, memoryMb, 0.0);
      frameCount := frameCount + 1;
      var currentTime := now;
      if currentTime - lastFpsTime >= FpsInterval {
        currentFps := frameCount as real / (currentTime - lastFpsTime);
        fpsList := fpsList + [currentFps];
        cpuList := cpuList + [cpuPercent];
        memoryList := memoryList + [memoryMb];
        frameCount := 0;
        lastFpsTime := currentTime;
      }
    }

    method AddResponseTime(responseTime: real)
      requires Valid()
      modifies this
      ensures Valid() && Snapshot() == AfterResponse(old(Snapshot()), responseTime)
    {
      UpdatesKeepConsistent(Snapshot(), 0.0, 0.0, 0.0, responseTime);
      responseTimes := responseTimes + [responseTime];
    }

    function GetStatistics(now: real): PerformanceStats
      reads this
    {
      StatisticsOf(Snapshot(), now)
    }
  }
}

/**
 * The performance monitor's main loop: the first hand moves the cursor by
 * its index fingertip and drives the fist toggle, scrolling and clicking,
 * each recorded gesture adds its response time, and every frame counts.
 */
module PerformanceSession {
  import opened Wrappers
  import opened Geometry
  import opened Landmarks
  import opened CursorMapping
  import opened GestureControl
  import opened PerformanceMonitoring

  datatype PerfOutput = PerfOutput(cursor: Option<Point>, scroll: Option<Dir>, click: bool)

  /**
   * The gesture logic of this loop is the shared step with all gestures
   * always on and no cursor-move record.
   */
  function PerfStep(c: Control, s: Signals, now: real): StepResult
    requires c.allGesturesActive
  {
    GestureStep(c, s, now, false)
  }

  /** This loop never records a cursor move, and its switch keeps gestures on. */
  lemma PerfStepEvents(c: Control, s: Signals, now: real)
    requires c.allGesturesActive
    ensures var r := PerfStep(c, s, now);
      && r.event != Some(GestureTracking.MoveCursor) && r.control.allGesturesActive
      && r.scroll == (if r.control.scrollActive then ScrollZone(s) else None)
  {
  }

  /** The monitor after a gesture was, or was not, recorded. */
  function Recorded(m: Monitor, recorded: bool, responseTime: real): Monitor {
    if recorded then AfterResponse(m, responseTime) else m
  }

  class PerformanceLoop {
    const screenWidth: nat
    const screenHeight: nat
    var monitor: PerformanceMonitor
    var scrollActive: bool
    var lastGestureTime: real
    var previousScrollState: Option<Dir>
    var previousClickState: bool
    var previousFistState: bool

    function ControlState(): Control
      reads this
    {
      Control(scrollActive, true, previousFistState, previousScrollState, previousClickState, lastGestureTime)
    }

    ghost predicate Valid()
      reads this, monitor
    {
      monitor.Valid()
    }

    constructor (screenWidth: nat, screenHeight: nat, now: real)
      ensures Valid() && fresh(monitor) && monitor.Snapshot() == InitialMonitor(now)
      ensures this.screenWidth == screenWidth && this.screenHeight == screenHeight
      ensures ControlState() == InitialControl(now)
    {
      this.screenWidth := screenWidth;
      this.screenHeight := screenHeight;
      monitor := new PerformanceMonitor(now);
      scrollActive := true;
      lastGestureTime := now;
      previousScrollState := None;
      previousClickState := false;
      previousFistState := false;
    }

    /** A fist closing, after the cooldown, toggles scrolling. */
    method ToggleStep(s: Signals, now: real, responseTime: real) returns (toggled: bool)
      requires Valid()
      modifies this, monitor
      ensures Valid() && monitor == old(monitor)
      ensures toggled == (s.fist && !old(previousFistState) && now - old(lastGestureTime) > GestureCooldown)
      ensures ControlState() == old(ControlState()).(
        scrollActive := old(scrollActive) != toggled, prevFist := s.fist,
        lastGestureTime := if toggled then now else old(lastGestureTime))
      ensures monitor.Snapshot() == Recorded(old(monitor.Snapshot()), toggled, responseTime)
    {
      toggled := false;
      if s.fist && !previousFistState {
        if now - lastGestureTime > GestureCooldown {
          scrollActive := !scrollActive;
          monitor.AddResponseTime(responseTime);
          lastGestureTime := now;
          toggled := true;
        }
      }
      previousFistState := s.fist;
    }

    /** Scrolling in the hand's zone while scrolling is on, recorded when the zone changes. */
    method ScrollStep(s: Signals, now: real, responseTime: real) returns (zone: Option<Dir>, scrolled: bool)
      requires Valid()
      modifies this, monitor
      ensures Valid() && monitor == old(monitor)
      ensures zone == if old(scrollActive) then ScrollZone(s) else None
      ensures scrolled == (zone.Some? && zone != old(previousScrollState) && now - old(lastGestureTime) > GestureCooldown)
      ensures ControlState() == old(ControlState()).(
        prevScroll := zone, lastGestureTime := if scrolled then now else old(lastGestureTime))
      ensures monitor.Snapshot() == Recorded(old(monitor.Snapshot()), scrolled, responseTime)
    {
      zone := None;
      scrolled := false;
      if scrollActive {
        if s.near {
          zone := Some(Up);
          if previousScrollState != Some(Up) {
            if now - lastGestureTime > GestureCooldown {
              monitor.AddResponseTime(responseTime);
              lastGestureTime := now;
              scrolled := true;
            }
          }
        } else if s.far {
          zone := Some(Down);
          if previousScrollState != Some(Down) {
            if now - lastGestureTime > GestureCooldown {
              monitor.AddResponseTime(responseTime);
              lastGestureTime := now;
              scrolled := true;
            }
          }
        }
      }
      previousScrollState := zone;
    }

    /** A thumb-pinky pinch closing, after the cooldown, clicks. */
    method ClickStep(s: Signals, now: real, responseTime: real) returns (clicked: bool)
      requires Valid()
      modifies this, monitor
      ensures Valid() && monitor == old(monitor)
      ensures clicked == (s.pinkyPinch && !old(previousClickState) && now - old(lastGestureTime) > GestureCooldown)
      ensures ControlState() == old(ControlState()).(
        prevClick := s.pinkyPinch, lastGestureTime := if clicked then now else old(lastGestureTime))
      ensures monitor.Snapshot() == Recorded(old(monitor.Snapshot()), clicked, responseTime)
    {
      clicked := false;
      var currentClickState := s.pinkyPinch;
      if currentClickState && !previousClickState {
        if now - lastGestureTime > GestureCooldown {
          clicked := true;
          monitor.AddResponseTime(responseTime);
          lastGestureTime := now;
        }
      }
      previousClickState := currentClickState;
    }

    /**
     * The gestures of the first hand, in the order of the loop body;
     * `responseTime` is the time, in seconds, from the start of hand
     * detection to a gesture's recording.
     */
    method HandStep(hand: Hand, imgWidth: int, imgHeight: int, now: real, responseTime: real)
      returns (out: PerfOutput)
      requires Valid() && ValidHand(hand) && imgWidth > 0 && imgHeight > 0
      modifies this, monitor
      ensures Valid() && monitor == old(monitor)
      ensures var r := PerfStep(old(ControlState()), SignalsOf(hand), now);
        && ControlState() == r.control
        && out == PerfOutput(Some(MapToScreen(hand[IndexTip], screenWidth, screenHeight, imgWidth, imgHeight)),
                             r.scroll, r.click)
        && monitor.Snapshot() == Recorded(old(monitor.Snapshot()), r.event.Some?, responseTime)
    {
      var s := SignalsOf(hand);
      var cursor := MapToScreen(hand[IndexTip], screenWidth, screenHeight, imgWidth, imgHeight);
      var toggled := ToggleStep(s, now, responseTime);
      var zone, scrolled := ScrollStep(s, now, responseTime);
      var clicked := ClickStep(s, now, responseTime);
      out := PerfOutput(Some(cursor), zone, clicked);
    }

    /**
     * One camera frame: the gestures of the first hand if there is one,
     * then the frame count with the CPU and memory readings. `now` is the
     * clock reading the gestures use, taken at the start of the frame;
     * `frameNow` is the frame update's own reading, taken at its end.
     */
    method ProcessFrame(hands: seq<Hand>, imgWidth: int, imgHeight: int, now: real, responseTime: real,
                        frameNow: real, cpuPercent: real, memoryMb: real)
      returns (out: PerfOutput)
      requires Valid() && ValidHands(hands) && imgWidth > 0 && imgHeight > 0
      modifies this, monitor
      ensures Valid() && monitor == old(monitor)
      ensures hands == [] ==>
        && out == PerfOutput(None, None, false) && ControlState() == old(ControlState())
        && monitor.Snapshot() == AfterFrame(old(monitor.Snapshot()), frameNow, cpuPercent, memoryMb)
      ensures hands != [] ==>
        var r := PerfStep(old(ControlState()), SignalsOf(hands[0]), now);
        && ControlState() == r.control
        && out == PerfOutput(Some(MapToScreen(hands[0][IndexTip], screenWidth, screenHeight, imgWidth, imgHeight)),
                             r.scroll, r.click)
        && monitor.Snapshot() ==
             AfterFrame(Recorded(old(monitor.Snapshot()), r.event.Some?, responseTime), frameNow, cpuPercent, memoryMb)
    {
      out := PerfOutput(None, None, false);
      if hands != [] {
        out := HandStep(hands[0], imgWidth, imgHeight, now, responseTime);
      }
      monitor.UpdateFrame(frameNow, cpuPercent, memoryMb);
    }
  }
}
