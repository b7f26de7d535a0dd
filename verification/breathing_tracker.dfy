/**
 BreathingTracker: turns per-frame MoveNet shoulder keypoints into a
 "deep breath" event. The shoulder height is smoothed, kept in a sliding
 window of the last 90 samples, and an event fires when the window's
 peak-to-peak depth exceeds a threshold and enough time has passed since
 the previous event. The static C# event is modelled as a `fired` flag.
 */
module BreathingTracker {
  import Mathf

  /** The Inspector tunables. */
  datatype Config = Config(smoothingFactor: real, breathDepthThreshold: real, minBreathDuration: real)

  const Defaults := Config(0.2, 0.015, 2.5)

  /** Samples kept in the window, and samples kept after an event. */
  const WindowSize: nat := 90
  const KeepAfterBreath: nat := 45

  /** MoveNet keypoint indices of the shoulders. */
  const LeftShoulder: nat := 5
  const RightShoulder: nat := 6

  /** Keypoint confidence below which a frame is ignored. */
  const MinScore: real := 0.5

  /** One MoveNet keypoint: the fields the tracker reads. */
  datatype Detection = Detection(y: real, score: real)

  datatype Tracker = Tracker(smoothedY: real, isFirstUpdate: bool, lastBreathTime: real, history: seq<real>)

  /** The field initialisers: no smoothed height yet, no event yet, an empty window. */
  const Initial := Tracker(0.0, true, 0.0, [])

  /** The window never holds more than `WindowSize` samples. */
  predicate Valid(t: Tracker) { |t.history| <= WindowSize }

  datatype Step = Step(tracker: Tracker, fired: bool)

  /** Peak-to-peak depth of the window. */
  function Depth(history: seq<real>): (d: real)
    ensures |history| > 0 ==> d >= 0.0
  {
    Mathf.Max(history) - Mathf.Min(history)
  }

  /** The most recent `WindowSize` samples of `history` followed by `y`
      (all of them when there are fewer). */
  function Slide(history: seq<real>, y: real): seq<real>
  {
    var h := history + [y];
    if |h| <= WindowSize then h else h[|h| - WindowSize..]
  }

  /** `RunBreathAlgorithm(currentY)` at time `time`. */
  function RunBreathAlgorithm(cfg: Config, t: Tracker, currentY: real, time: real): (r: Step)
    requires Valid(t)
    ensures Valid(r.tracker)
    ensures r.tracker.smoothedY == t.smoothedY && r.tracker.isFirstUpdate == t.isFirstUpdate
    // no event before the window is full
    ensures |t.history| + 1 < WindowSize ==> !r.fired
    // the event condition, both ways
    ensures r.fired <==>
              && |Slide(t.history, currentY)| == WindowSize
              && Depth(Slide(t.history, currentY)) > cfg.breathDepthThreshold
              && time - t.lastBreathTime > cfg.minBreathDuration
    // without an event the window just slides
    ensures !r.fired ==> (r.tracker.history == Slide(t.history, currentY)
                          && r.tracker.lastBreathTime == t.lastBreathTime)
    // on an event the time is recorded and the window keeps its last 45 samples, in order
    ensures r.fired ==> (r.tracker.lastBreathTime == time
                         && r.tracker.history == Slide(t.history, currentY)[WindowSize - KeepAfterBreath..]
                         && |r.tracker.history| == KeepAfterBreath)
  {
    var h0 := t.history + [currentY];
    var h := if |h0| > WindowSize then h0[1..] else h0;
    assert h == Slide(t.history, currentY);
    if |h| < WindowSize then Step(t.(history := h), false)
    else
      var depth := Depth(h);
      if depth > cfg.breathDepthThreshold && time - t.lastBreathTime > cfg.minBreathDuration then
        var trimSize := |h| - KeepAfterBreath;
        var kept := if trimSize > 0 then h[trimSize..] else h;
        assert |h| == WindowSize && kept == h[WindowSize - KeepAfterBreath..];
        Step(t.(lastBreathTime := time, history := kept), true)
      else
        Step(t.(history := h), false)
  }

  /** A frame is used only when MoveNet reported both shoulders, each with
      a score of at least `MinScore`. */
  predicate Accepted(detections: seq<Detection>)
  {
    && |detections| > RightShoulder
    && detections[LeftShoulder].score >= MinScore
    && detections[RightShoulder].score >= MinScore
  }

  /** The mean height of the two shoulders. */
  function ShoulderCentre(detections: seq<Detection>): real
    requires |detections| > RightShoulder
  {
    (detections[LeftShoulder].y + detections[RightShoulder].y) / 2.0
  }

  /** `AnalyzeDetection(detections)`, called once per frame at time `time`. */
  function AnalyzeDetection(cfg: Config, t: Tracker, detections: seq<Detection>, time: real): (r: Step)
    requires Valid(t)
    ensures Valid(r.tracker)
    // an unusable frame changes nothing and fires nothing
    ensures !Accepted(detections) ==> r == Step(t, false)
    ensures Accepted(detections) ==> !r.tracker.isFirstUpdate
    // the first usable frame takes the shoulder centre as is
    ensures Accepted(detections) && t.isFirstUpdate ==> r.tracker.smoothedY == ShoulderCentre(detections)
    // later frames move the smoothed height a fixed fraction of the way to it
    ensures Accepted(detections) && !t.isFirstUpdate ==>
              && r.tracker.smoothedY - t.smoothedY
                 == (ShoulderCentre(detections) - t.smoothedY) * Mathf.Clamp01(cfg.smoothingFactor)
              && (t.smoothedY <= ShoulderCentre(detections) ==> t.smoothedY <= r.tracker.smoothedY <= ShoulderCentre(detections))
              && (ShoulderCentre(detections) <= t.smoothedY ==> ShoulderCentre(detections) <= r.tracker.smoothedY <= t.smoothedY)
    // the debounce clock moves only with an event
    ensures r.fired ==> time - t.lastBreathTime > cfg.minBreathDuration && r.tracker.lastBreathTime == time
    ensures !r.fired ==> r.tracker.lastBreathTime == t.lastBreathTime
    // and the smoothed height is what the window receives
    ensures Accepted(detections) ==>
              r == RunBreathAlgorithm(cfg, t.(smoothedY := r.tracker.smoothedY, isFirstUpdate := false),
                                      r.tracker.smoothedY, time)
  {
    if |detections| <= RightShoulder then Step(t, false)
    else
      var leftScore := detections[LeftShoulder].score;
      var rightScore := detections[RightShoulder].score;
      if leftScore < MinScore || rightScore < MinScore then Step(t, false)
      else
        var centre := (detections[LeftShoulder].y + detections[RightShoulder].y) / 2.0;
        var smoothed := if t.isFirstUpdate then centre else Mathf.Lerp(t.smoothedY, centre, cfg.smoothingFactor);
        var t1 := t.(smoothedY := smoothed, isFirstUpdate := false);
        RunBreathAlgorithm(cfg, t1, smoothed, time)
  }

  /** One frame's input: the detections and `Time.time`. */
  datatype Frame = Frame(detections: seq<Detection>, time: real)

  /** A sequence of frames: the final tracker and the times of the events. */
  datatype Trace = Trace(tracker: Tracker, fireTimes: seq<real>)

  function Run(cfg: Config, t: Tracker, frames: seq<Frame>): (r: Trace)
    requires Valid(t)
    ensures Valid(r.tracker)
    ensures |r.fireTimes| <= |frames|
    decreases |frames|
  {
    if |frames| == 0 then Trace(t, [])
    else
      var step := AnalyzeDetection(cfg, t, frames[0].detections, frames[0].time);
      var rest := Run(cfg, step.tracker, frames[1..]);
      Trace(rest.tracker, (if step.fired then [frames[0].time] else []) + rest.fireTimes)
  }

  /** Debounce: every event comes more than `minBreathDuration` after the
      previous one (the first one after the recorded `lastBreathTime`),
      and `lastBreathTime` ends up as the time of the last event. */
  lemma {:induction false} EventsSpaced(cfg: Config, t: Tracker, frames: seq<Frame>)
    requires Valid(t)
    ensures var fires := Run(cfg, t, frames).fireTimes;
            && (|fires| > 0 ==> fires[0] - t.lastBreathTime > cfg.minBreathDuration)
            && (forall k :: 0 < k < |fires| ==> fires[k] - fires[k - 1] > cfg.minBreathDuration)
            && Run(cfg, t, frames).tracker.lastBreathTime
               == if |fires| > 0 then fires[|fires| - 1] else t.lastBreathTime
    decreases |frames|
  {
    if |frames| > 0 {
      var step := AnalyzeDetection(cfg, t, frames[0].detections, frames[0].time);
      var rest := Run(cfg, step.tracker, frames[1..]);
      EventsSpaced(cfg, step.tracker, frames[1..]);
      var fires := Run(cfg, t, frames).fireTimes;
      if step.fired {
        assert fires == [frames[0].time] + rest.fireTimes;
        assert fires[0] - t.lastBreathTime > cfg.minBreathDuration;
        SpacedCons(frames[0].time, rest.fireTimes, cfg.minBreathDuration);
        assert |rest.fireTimes| > 0 ==> fires[|fires| - 1] == rest.fireTimes[|rest.fireTimes| - 1];
        assert step.tracker.lastBreathTime == fires[0];
      } else {
        assert fires == rest.fireTimes;
      }
    }
  }

  /** Fewer usable samples than a full window fire nothing: the window
      grows by at most one sample per frame, and only a full window fires. */
  lemma {:induction false} NoEventBeforeWindowFills(cfg: Config, t: Tracker, frames: seq<Frame>)
    requires Valid(t) && |t.history| + |frames| < WindowSize
    ensures Run(cfg, t, frames).fireTimes == []
    ensures |Run(cfg, t, frames).tracker.history| <= |t.history| + |frames|
    decreases |frames|
  {
    if |frames| > 0 {
      var step := AnalyzeDetection(cfg, t, frames[0].detections, frames[0].time);
      assert !step.fired && |step.tracker.history| <= |t.history| + 1;
      NoEventBeforeWindowFills(cfg, step.tracker, frames[1..]);
    }
  }

  /** A freshly placed tracker: its first event needs a full window of 90
      usable frames and comes more than `minBreathDuration` after time 0,
      and every later one is spaced as the debounce demands. */
  lemma FreshTracker(cfg: Config, frames: seq<Frame>)
    ensures Valid(Initial)
    ensures |frames| < WindowSize ==> Run(cfg, Initial, frames).fireTimes == []
    ensures var fires := Run(cfg, Initial, frames).fireTimes;
            && (|fires| > 0 ==> fires[0] > cfg.minBreathDuration)
            && (forall k :: 0 < k < |fires| ==> fires[k] - fires[k - 1] > cfg.minBreathDuration)
  {
    EventsSpaced(cfg, Initial, frames);
    if |frames| < WindowSize {
      NoEventBeforeWindowFills(cfg, Initial, frames);
    }
  }

  /** Prepending an event time to a spaced sequence whose first element is
      far enough from it keeps it spaced. */
  lemma SpacedCons(first: real, rest: seq<real>, gap: real)
    requires |rest| > 0 ==> rest[0] - first > gap
    requires forall k :: 0 < k < |rest| ==> rest[k] - rest[k - 1] > gap
    ensures forall k :: 0 < k < |[first] + rest| ==> ([first] + rest)[k] - ([first] + rest)[k - 1] > gap
  {
  }

  /** `FreshTracker` at the Inspector defaults: no event in the first 89
      frames, and events at least 2.5 s after the start and apart. */
  lemma DefaultsFreshTracker(frames: seq<Frame>)
    ensures |frames| < WindowSize ==> Run(Defaults, Initial, frames).fireTimes == []
    ensures var fires := Run(Defaults, Initial, frames).fireTimes;
            && (|fires| > 0 ==> fires[0] > 2.5)
            && (forall k :: 0 < k < |fires| ==> fires[k] - fires[k - 1] > 2.5)
  {
    FreshTracker(Defaults, frames);
  }
}
