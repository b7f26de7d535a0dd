/**
 The few UnityEngine.Mathf helpers the game logic relies on, over `real`
 (IEEE rounding is not modelled). UnityEngine itself is not part of this
 model; these follow the engine's documented behaviour.
 */
module Mathf {

  /** Mathf.Clamp: the lower bound is tested first, so with `min > max`
      a value below `min` yields `min` and any other value above `max`
      yields `max`. */
  function Clamp(value: real, min: real, max: real): (r: real)
    ensures min <= max ==> min <= r <= max
    ensures min <= value <= max ==> r == value
    ensures r == value || r == min || r == max
    ensures value < min ==> r == min
    ensures min <= value && max < value ==> r == max
  {
    if value < min then min else if value > max then max else value
  }

  /** Mathf.Clamp01 */
  function Clamp01(t: real): (r: real)
    ensures 0.0 <= r <= 1.0
    ensures 0.0 <= t <= 1.0 ==> r == t
  {
    Clamp(t, 0.0, 1.0)
  }

  /** A product of a non-negative factor in [0, 1] with `d` lies between 0 and `d`. */
  lemma ScaledBetween(d: real, c: real)
    requires 0.0 <= c <= 1.0
    ensures 0.0 <= d ==> 0.0 <= d * c <= d
    ensures d <= 0.0 ==> d <= d * c <= 0.0
  {
    if 0.0 <= d {
      assert d * c <= d * 1.0;
    } else {
      assert d * 1.0 <= d * c;
    }
  }

  /** Mathf.Lerp: `a + (b - a) * Clamp01(t)`; the result never leaves the
      segment between `a` and `b`. */
  function Lerp(a: real, b: real, t: real): (r: real)
    ensures a <= b ==> a <= r <= b
    ensures b <= a ==> b <= r <= a
    ensures t <= 0.0 ==> r == a
    ensures 1.0 <= t ==> r == b
    // inside [0, 1] the result moves the fraction `t` of the way from `a` to `b`
    ensures 0.0 <= t <= 1.0 ==> r - a == (b - a) * t
  {
    var c := Clamp01(t);
    var d := b - a;
    ScaledBetween(d, c);
    assert c == 0.0 ==> d * c == 0.0;
    assert c == 1.0 ==> d * c == d;
    a + d * c
  }

  /** Mathf.Min(params float[]): 0 for no values, otherwise a left-to-right
      scan that keeps the smaller value. */
  function Min(values: seq<real>): (r: real)
    ensures |values| == 0 ==> r == 0.0
    ensures forall i :: 0 <= i < |values| ==> r <= values[i]
    ensures |values| > 0 ==> exists i :: 0 <= i < |values| && r == values[i]
  {
    if |values| == 0 then 0.0
    else if |values| == 1 then values[0]
    else
      var m := Min(values[..|values| - 1]);
      var last := values[|values| - 1];
      if last < m then last else m
  }

  /** Mathf.Max(params float[]): 0 for no values, otherwise a left-to-right
      scan that keeps the larger value. */
  function Max(values: seq<real>): (r: real)
    ensures |values| == 0 ==> r == 0.0
    ensures forall i :: 0 <= i < |values| ==> values[i] <= r
    ensures |values| > 0 ==> exists i :: 0 <= i < |values| && r == values[i]
  {
    if |values| == 0 then 0.0
    else if |values| == 1 then values[0]
    else
      var m := Max(values[..|values| - 1]);
      var last := values[|values| - 1];
      if last > m then last else m
  }
}
