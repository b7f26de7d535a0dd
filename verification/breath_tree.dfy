/**
 BreathTreeController: classifies each frame's shoulder movement as inhale
 or exhale, counts completed breaths on a growth meter, and every five
 breaths advances the tree to its next stage, showing exactly that stage.
 The stage objects are modelled by their active flags.
 */
module BreathTree {

  /** `inhaleTime`, the breath length that completes a breath. */
  datatype Config = Config(inhaleTime: real)

  const Defaults := Config(4.0)

  /** Shoulder movements within this band count as neither inhale nor exhale. */
  const DeadBand: real := 0.002

  /** Completed breaths per growth stage. */
  const GrowthThreshold: real := 5.0

  datatype Controller = Controller(
    breathTimer: real,
    isInhale: bool,
    currentStage: int,
    growthMeter: real,
    lastShoulderHeight: real,
    stages: seq<bool>)

  /** The stage flags `UpdateTreeVisual` sets: stage `i` is active exactly when it is `stage`. */
  function Visual(count: nat, stage: int): (v: seq<bool>)
    ensures |v| == count
    ensures forall i :: 0 <= i < count ==> (v[i] <==> i == stage)
  {
    seq(count, i => i == stage)
  }

  /** How many stages are active. */
  function ActiveCount(v: seq<bool>): nat
  {
    if |v| == 0 then 0 else (if v[0] then 1 else 0) + ActiveCount(v[1..])
  }

  /** `UpdateTreeVisual` leaves exactly one stage active when the stage
      index is in range, and none otherwise. */
  lemma {:induction false} VisualExactlyOne(count: nat, stage: int)
    ensures ActiveCount(Visual(count, stage)) == if 0 <= stage < count then 1 else 0
    decreases count
  {
    if count > 0 {
      assert Visual(count, stage)[1..] == Visual(count - 1, stage - 1);
      VisualExactlyOne(count - 1, stage - 1);
    }
  }

  /** Whatever the frames so far, a tree with stages shows exactly one,
      the current one. */
  lemma OneStageShown(c: Controller)
    requires Valid(c) && |c.stages| > 0
    ensures ActiveCount(c.stages) == 1
    ensures forall i :: 0 <= i < |c.stages| ==> (c.stages[i] <==> i == c.currentStage)
  {
    VisualExactlyOne(|c.stages|, c.currentStage);
  }

  /** A controller that has run `Start`: the meter holds a whole number of
      breaths below the threshold, the stage is a valid index (with no
      stages it can only be 0 or -1), and the flags show that stage. */
  predicate Valid(c: Controller)
  {
    && 0.0 <= c.growthMeter < GrowthThreshold
    && c.growthMeter.Floor as real == c.growthMeter
    && (|c.stages| > 0 ==> 0 <= c.currentStage < |c.stages|)
    && (|c.stages| == 0 ==> -1 <= c.currentStage <= 0)
    && c.stages == Visual(|c.stages|, c.currentStage)
  }

  /** The field initialisers followed by `Start`. */
  function Start(stageCount: nat): (c: Controller)
    ensures Valid(c)
    ensures c.currentStage == 0 && c.growthMeter == 0.0 && c.isInhale
    // one flag per stage object; the timer and the last height start at zero
    ensures |c.stages| == stageCount && c.breathTimer == 0.0 && c.lastShoulderHeight == 0.0
    ensures stageCount > 0 ==> ActiveCount(c.stages) == 1 && c.stages[0]
  {
    VisualExactlyOne(stageCount, 0);
    Controller(0.0, true, 0, 0.0, 0.0, Visual(stageCount, 0))
  }

  /** `OnInhale`: inhaling, and the breath timer runs on by the frame time. */
  function OnInhale(c: Controller, deltaTime: real): (r: Controller)
    ensures r.isInhale
    ensures r.breathTimer - c.breathTimer == deltaTime
    ensures r.(isInhale := c.isInhale, breathTimer := c.breathTimer) == c
  {
    c.(isInhale := true, breathTimer := c.breathTimer + deltaTime)
  }

  /** `OnExhale`: exhaling; a breath long enough completes, adding one to
      the meter and restarting the timer. */
  function OnExhale(cfg: Config, c: Controller): (r: Controller)
    ensures !r.isInhale
    ensures c.breathTimer >= cfg.inhaleTime ==> r.growthMeter == c.growthMeter + 1.0 && r.breathTimer == 0.0
    ensures c.breathTimer < cfg.inhaleTime ==> r.growthMeter == c.growthMeter && r.breathTimer == c.breathTimer
    ensures r.(isInhale := c.isInhale, growthMeter := c.growthMeter, breathTimer := c.breathTimer) == c
  {
    var c1 := c.(isInhale := false);
    if c1.breathTimer >= cfg.inhaleTime then
      c1.(growthMeter := c1.growthMeter + 1.0, breathTimer := 0.0)
    else c1
  }

  /** `DetectBreathFromShoulder` with `shoulderHeight` as this frame's input. */
  function DetectBreath(cfg: Config, c: Controller, shoulderHeight: real, deltaTime: real): (r: Controller)
    ensures r.lastShoulderHeight == shoulderHeight
    ensures shoulderHeight - c.lastShoulderHeight > DeadBand ==>
              r == OnInhale(c, deltaTime).(lastShoulderHeight := shoulderHeight)
    ensures shoulderHeight - c.lastShoulderHeight < -DeadBand ==>
              r == OnExhale(cfg, c).(lastShoulderHeight := shoulderHeight)
    ensures -DeadBand <= shoulderHeight - c.lastShoulderHeight <= DeadBand ==>
              r == c.(lastShoulderHeight := shoulderHeight)
  {
    var diff := shoulderHeight - c.lastShoulderHeight;
    var c1 := if diff > DeadBand then OnInhale(c, deltaTime)
              else if diff < -DeadBand then OnExhale(cfg, c)
              else c;
    c1.(lastShoulderHeight := shoulderHeight)
  }

  /** `UpdateGrowth`: at the threshold the meter empties and the tree moves
      up one stage, never past the last one, and the flags are redrawn. */
  function UpdateGrowth(c: Controller): (r: Controller)
    ensures c.growthMeter < GrowthThreshold ==> r == c
    ensures c.growthMeter >= GrowthThreshold ==>
              && r.growthMeter == 0.0
              && r.currentStage == (if c.currentStage + 1 >= |c.stages| then |c.stages| - 1 else c.currentStage + 1)
              && r.stages == Visual(|c.stages|, r.currentStage)
              && r.(growthMeter := c.growthMeter, currentStage := c.currentStage, stages := c.stages) == c
  {
    if c.growthMeter >= GrowthThreshold then
      var stage := c.currentStage + 1;
      var clamped := if stage >= |c.stages| then |c.stages| - 1 else stage;
      var c1 := c.(growthMeter := 0.0, currentStage := clamped);
      c1.(stages := Visual(|c1.stages|, c1.currentStage))
    else c
  }

  /** A frame's outcome: the controller, whether a breath completed and
      whether the tree grew. */
  datatype Tick = Tick(controller: Controller, breathed: bool, grew: bool)

  /** `Update`: detect, animate the circle (not modelled), grow. */
  function Update(cfg: Config, c: Controller, shoulderHeight: real, deltaTime: real): (r: Tick)
    requires Valid(c)
    ensures Valid(r.controller)
    ensures r.breathed <==> shoulderHeight - c.lastShoulderHeight < -DeadBand && c.breathTimer >= cfg.inhaleTime
    ensures r.grew <==> r.breathed && c.growthMeter == GrowthThreshold - 1.0
    ensures r.controller.growthMeter
            == c.growthMeter + (if r.breathed then 1.0 else 0.0) - (if r.grew then GrowthThreshold else 0.0)
    ensures r.grew ==> r.controller.currentStage
                       == if c.currentStage + 1 < |c.stages| then c.currentStage + 1 else |c.stages| - 1
    ensures !r.grew ==> r.controller.currentStage == c.currentStage
    ensures |r.controller.stages| == |c.stages|
    // the state handed to the next frame: this frame's height, and a timer
    // that runs on while inhaling and restarts after a completed breath
    ensures r.controller.lastShoulderHeight == shoulderHeight
    ensures r.controller.breathTimer
            == if shoulderHeight - c.lastShoulderHeight > DeadBand then c.breathTimer + deltaTime
               else if r.breathed then 0.0
               else c.breathTimer
    ensures r.controller.isInhale
            == if shoulderHeight - c.lastShoulderHeight > DeadBand then true
               else if shoulderHeight - c.lastShoulderHeight < -DeadBand then false
               else c.isInhale
    // detection first, then growth
    ensures r.controller == UpdateGrowth(DetectBreath(cfg, c, shoulderHeight, deltaTime))
  {
    var d := DetectBreath(cfg, c, shoulderHeight, deltaTime);
    var g := UpdateGrowth(d);
    Tick(g, d.growthMeter != c.growthMeter, g.growthMeter != d.growthMeter)
  }

  /** One frame's inputs: the shoulder height and `Time.deltaTime`. */
  datatype Input = Input(shoulderHeight: real, deltaTime: real)

  /** A run of frames: the final controller and how many breaths completed
      and how many times the tree grew on the way. */
  datatype Summary = Summary(controller: Controller, breaths: nat, growths: nat)

  function Run(cfg: Config, c: Controller, inputs: seq<Input>): (r: Summary)
    requires Valid(c)
    ensures Valid(r.controller)
    decreases |inputs|
  {
    if |inputs| == 0 then Summary(c, 0, 0)
    else
      var tick := Update(cfg, c, inputs[0].shoulderHeight, inputs[0].deltaTime);
      var rest := Run(cfg, tick.controller, inputs[1..]);
      Summary(rest.controller,
              rest.breaths + (if tick.breathed then 1 else 0),
              rest.growths + (if tick.grew then 1 else 0))
  }

  /** Every five completed breaths grow the tree one stage: the breaths
      completed over a run, plus the meter at the start, are five per
      growth plus what the meter holds at the end; and the stage rises by
      the number of growths, stopping at the last stage. */
  lemma {:induction false} GrowthAccounting(cfg: Config, c: Controller, inputs: seq<Input>)
    requires Valid(c)
    ensures var r := Run(cfg, c, inputs);
            c.growthMeter + r.breaths as real == GrowthThreshold * r.growths as real + r.controller.growthMeter
    ensures var r := Run(cfg, c, inputs);
            |c.stages| > 0 ==>
              r.controller.currentStage
              == if c.currentStage + r.growths < |c.stages| then c.currentStage + r.growths else |c.stages| - 1
    decreases |inputs|
  {
    if |inputs| > 0 {
      var tick := Update(cfg, c, inputs[0].shoulderHeight, inputs[0].deltaTime);
      GrowthAccounting(cfg, tick.controller, inputs[1..]);
    }
  }

  /** The breath timer adds up inhale frames across exhales: with the
      default `inhaleTime` of 4 s, two 2-second inhales separated by a
      short exhale complete no breath at the first exhale and one breath at
      the second. */
  lemma InhalesAccumulate(stageCount: nat)
    ensures var t1 := Update(Defaults, Start(stageCount), 0.01, 2.0);
            var t2 := Update(Defaults, t1.controller, 0.0, 0.1);
            var t3 := Update(Defaults, t2.controller, 0.01, 2.0);
            var t4 := Update(Defaults, t3.controller, 0.0, 0.1);
            !t2.breathed && t4.breathed && t4.controller.growthMeter == 1.0
  {
    var v := Visual(stageCount, 0);
    var c1 := Controller(2.0, true, 0, 0.0, 0.01, v);
    var c2 := Controller(2.0, false, 0, 0.0, 0.0, v);
    var c3 := Controller(4.0, true, 0, 0.0, 0.01, v);
    assert Update(Defaults, Start(stageCount), 0.01, 2.0).controller == c1;
    assert Update(Defaults, c1, 0.0, 0.1).controller == c2;
    assert Update(Defaults, c2, 0.01, 2.0).controller == c3;
  }
}
