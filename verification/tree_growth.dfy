/**
 TreeGrowthController: the target scale the tree eases towards. A shoulder
 lift grows it uniformly by `growthAmount`, up to three times the initial
 width; a shoulder drop resets it to the initial scale. The per-frame
 easing of the rendered scale towards the target is not modelled.
 */
module TreeGrowth {

  datatype Vec3 = Vec3(x: real, y: real, z: real)

  /** `growthAmount` */
  datatype Config = Config(growthAmount: real)

  const Defaults := Config(0.1)

  /** The tree grows while its target width is below this many initial widths. */
  const MaxGrowthFactor: real := 3.0

  datatype Tree = Tree(initialScale: Vec3, targetScale: Vec3)

  /** `Start`: remember the scale the tree was placed with and aim for it. */
  function Start(localScale: Vec3): (t: Tree)
    ensures t.initialScale == localScale && t.targetScale == t.initialScale
  {
    Tree(localScale, localScale)
  }

  /** `GrowTree` */
  function GrowTree(cfg: Config, t: Tree): (r: Tree)
    ensures r.initialScale == t.initialScale
    ensures t.targetScale.x < MaxGrowthFactor * t.initialScale.x ==>
              && r.targetScale.x - t.targetScale.x == cfg.growthAmount
              && r.targetScale.y - t.targetScale.y == cfg.growthAmount
              && r.targetScale.z - t.targetScale.z == cfg.growthAmount
    ensures t.targetScale.x >= MaxGrowthFactor * t.initialScale.x ==> r == t
  {
    if t.targetScale.x < t.initialScale.x * MaxGrowthFactor then
      var a := cfg.growthAmount;
      t.(targetScale := Vec3(t.targetScale.x + a, t.targetScale.y + a, t.targetScale.z + a))
    else t
  }

  /** `ShrinkTree`: back to the initial scale. */
  function ShrinkTree(t: Tree): (r: Tree)
    ensures r.initialScale == t.initialScale && r.targetScale == t.initialScale
  {
    t.(targetScale := t.initialScale)
  }

  /** Dropping twice is dropping once. */
  lemma ShrinkIdempotent(t: Tree)
    ensures ShrinkTree(ShrinkTree(t)) == ShrinkTree(t)
  {
  }

  /** The target differs from the initial scale by the same amount on every axis. */
  predicate Uniform(t: Tree)
  {
    && t.targetScale.x - t.initialScale.x == t.targetScale.y - t.initialScale.y
    && t.targetScale.x - t.initialScale.x == t.targetScale.z - t.initialScale.z
  }

  /** The width stays within one step of the three-times cap. */
  predicate Capped(cfg: Config, t: Tree)
  {
    t.targetScale.x <= MaxGrowthFactor * t.initialScale.x + cfg.growthAmount
  }

  /** Growth is uniform, never exceeds the cap by more than one step, and
      never shrinks the tree. */
  lemma GrowTreeKeeps(cfg: Config, t: Tree)
    requires cfg.growthAmount >= 0.0
    ensures Uniform(t) ==> Uniform(GrowTree(cfg, t))
    ensures Capped(cfg, t) ==> Capped(cfg, GrowTree(cfg, t))
    ensures GrowTree(cfg, t).targetScale.x >= t.targetScale.x
  {
  }

  /** The controller's events. */
  datatype Event = Lift | Drop

  function Apply(cfg: Config, t: Tree, events: seq<Event>): (r: Tree)
    ensures r.initialScale == t.initialScale
    decreases |events|
  {
    if |events| == 0 then t
    else
      var t1 := match events[0] case Lift => GrowTree(cfg, t) case Drop => ShrinkTree(t);
      Apply(cfg, t1, events[1..])
  }

  /** From `Start` with a non-negative initial width and a non-negative
      step, any sequence of lifts and drops keeps the growth uniform and
      the width at most three initial widths plus one step. */
  lemma {:induction false} ApplyKeeps(cfg: Config, t: Tree, events: seq<Event>)
    requires cfg.growthAmount >= 0.0 && t.initialScale.x >= 0.0
    requires Uniform(t) && Capped(cfg, t)
    ensures Uniform(Apply(cfg, t, events)) && Capped(cfg, Apply(cfg, t, events))
    decreases |events|
  {
    if |events| > 0 {
      GrowTreeKeeps(cfg, t);
      var t1 := match events[0] case Lift => GrowTree(cfg, t) case Drop => ShrinkTree(t);
      ApplyKeeps(cfg, t1, events[1..]);
    }
  }

  /** Uniform growth needs no condition on the step's sign or the
      initial width: lifts and drops, in any order, keep every axis's
      offset from the initial scale equal. */
  lemma {:induction false} UniformAnyStep(cfg: Config, t: Tree, events: seq<Event>)
    requires Uniform(t)
    ensures Uniform(Apply(cfg, t, events))
    decreases |events|
  {
    if |events| > 0 {
      var t1 := match events[0] case Lift => GrowTree(cfg, t) case Drop => ShrinkTree(t);
      assert Uniform(t1);
      UniformAnyStep(cfg, t1, events[1..]);
    }
  }

  /** A mirrored tree (negative initial width) is already past three
      initial widths when started, so lifts never grow it; this is why the
      cap needs a non-negative width. */
  lemma MirroredNeverGrows(cfg: Config, localScale: Vec3, n: nat)
    requires localScale.x < 0.0
    ensures Apply(cfg, Start(localScale), seq(n, _ => Lift)) == Start(localScale)
  {
    CappedStays(cfg, Start(localScale), n);
  }

  /** `Start` satisfies both invariants. */
  lemma StartValid(cfg: Config, localScale: Vec3)
    requires cfg.growthAmount >= 0.0 && localScale.x >= 0.0
    ensures Uniform(Start(localScale)) && Capped(cfg, Start(localScale))
  {
  }

  /** With a positive step and initial width, enough lifts reach the cap,
      after which further lifts change nothing. */
  lemma {:induction false} LiftsReachCap(cfg: Config, t: Tree, n: nat)
    requires cfg.growthAmount > 0.0
    requires n as real * cfg.growthAmount >= MaxGrowthFactor * t.initialScale.x - t.targetScale.x
    ensures Apply(cfg, t, seq(n, _ => Lift)).targetScale.x >= MaxGrowthFactor * t.initialScale.x
    decreases n
  {
    if n > 0 {
      var t1 := GrowTree(cfg, t);
      assert seq(n, _ => Lift)[1..] == seq(n - 1, _ => Lift);
      if t.targetScale.x < MaxGrowthFactor * t.initialScale.x {
        LiftsReachCap(cfg, t1, n - 1);
      } else {
        CappedStays(cfg, t, n - 1);
      }
    }
  }

  /** At or past the cap, lifts change nothing. */
  lemma {:induction false} CappedStays(cfg: Config, t: Tree, n: nat)
    requires t.targetScale.x >= MaxGrowthFactor * t.initialScale.x
    ensures Apply(cfg, t, seq(n, _ => Lift)) == t
    decreases n
  {
    if n > 0 {
      assert seq(n, _ => Lift)[1..] == seq(n - 1, _ => Lift);
      CappedStays(cfg, t, n - 1);
    }
  }

  /** At the default step of 0.1, a tree placed at unit scale reaches three
      times its width after 20 lifts, and no sequence of lifts and drops
      takes it past 3.1 or makes its growth uneven. */
  lemma DefaultsUnitTree(events: seq<Event>)
    ensures Apply(Defaults, Start(Vec3(1.0, 1.0, 1.0)), seq(20, _ => Lift)).targetScale.x >= 3.0
    ensures var t := Apply(Defaults, Start(Vec3(1.0, 1.0, 1.0)), events);
            Uniform(t) && t.targetScale.x <= 3.1
  {
    var t0 := Start(Vec3(1.0, 1.0, 1.0));
    LiftsReachCap(Defaults, t0, 20);
    StartValid(Defaults, Vec3(1.0, 1.0, 1.0));
    ApplyKeeps(Defaults, t0, events);
  }
}
