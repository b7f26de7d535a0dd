/**
 OrbitCamera: the angle and zoom bookkeeping of a mouse-driven orbit
 camera. Turning the orbit angles into a rotation and a position is not
 modelled; what is kept is the yaw `x`, the pitch `y` (clamped to its
 limits) and the zoom `distance` (clamped to its range).
 */
module OrbitCamera {
  import Mathf

  datatype Config = Config(
    xSpeed: real, ySpeed: real,
    yMinLimit: real, yMaxLimit: real,
    zoomSpeed: real,
    minDistance: real, maxDistance: real)

  const Defaults := Config(120.0, 120.0, -20.0, 80.0, 4.0, 1.0, 15.0)

  /** Yaw, pitch and zoom, and whether the component is still enabled. */
  datatype Camera = Camera(x: real, y: real, distance: real, enabled: bool)

  /** The one-turn correction `ClampAngle` applies before clamping: at
      most one shift of 360 degrees, towards zero. */
  function Wrap(angle: real): (a: real)
    ensures angle < -360.0 ==> a == angle + 360.0
    ensures angle > 360.0 ==> a == angle - 360.0
    ensures -360.0 <= angle <= 360.0 ==> a == angle
    // a correction is a whole turn, and brings any angle within two turns to within one
    ensures a - angle == -360.0 || a == angle || a - angle == 360.0
    ensures -720.0 <= angle <= 720.0 ==> -360.0 <= a <= 360.0
  {
    var a1 := if angle < -360.0 then angle + 360.0 else angle;
    if a1 > 360.0 then a1 - 360.0 else a1
  }

  /** `ClampAngle(angle, min, max)` */
  function ClampAngle(angle: real, min: real, max: real): (r: real)
    ensures min <= max ==> min <= r <= max
    ensures -360.0 <= angle <= 360.0 && min <= angle <= max ==> r == angle
    // the corrected angle is kept when within the limits, else replaced by the limit it passed
    ensures min <= Wrap(angle) <= max ==> r == Wrap(angle)
    ensures Wrap(angle) < min ==> r == min
    ensures min <= Wrap(angle) && max < Wrap(angle) ==> r == max
  {
    Mathf.Clamp(Wrap(angle), min, max)
  }

  /** With limits inside one turn, clamping an already clamped angle
      changes nothing. */
  lemma ClampAngleIdempotent(angle: real, min: real, max: real)
    requires -360.0 <= min <= max <= 360.0
    ensures ClampAngle(ClampAngle(angle, min, max), min, max) == ClampAngle(angle, min, max)
  {
  }

  /** The correction is a single turn, not a reduction modulo 360: an angle
      more than two turns below zero is shifted once and then clamped as is. */
  lemma ClampAngleShiftsOnce(angle: real, min: real, max: real)
    requires angle < -720.0 && min <= angle + 360.0 <= max
    ensures ClampAngle(angle, min, max) == angle + 360.0
  {
  }

  /** `Start`: without a target the component disables itself; otherwise
      it takes its orbit angles from the current Euler angles. */
  function Start(cam: Camera, hasTarget: bool, eulerX: real, eulerY: real): (r: Camera)
    ensures !hasTarget ==> !r.enabled && r.(enabled := cam.enabled) == cam
    ensures hasTarget ==> r == cam.(x := eulerY, y := eulerX)
  {
    if !hasTarget then cam.(enabled := false)
    else cam.(x := eulerY, y := eulerX)
  }

  /** One frame's input: whether a mouse button is held, the mouse and
      scroll-wheel axes, and `Time.deltaTime`. */
  datatype Input = Input(mouseHeld: bool, mouseX: real, mouseY: real, scroll: real, deltaTime: real)

  /** `LateUpdate`, without the rotation and position it writes. */
  function LateUpdate(cfg: Config, cam: Camera, hasTarget: bool, input: Input): (r: Camera)
    // with no target nothing changes
    ensures !hasTarget ==> r == cam
    ensures r.enabled == cam.enabled
    // the yaw moves only while a button is held, by the scaled mouse motion
    ensures hasTarget && !input.mouseHeld ==> r.x == cam.x
    ensures hasTarget && input.mouseHeld ==> r.x - cam.x == input.mouseX * cfg.xSpeed * input.deltaTime
    // a pitch or zoom step that stays inside the limits is taken as is
    ensures var pitch := if input.mouseHeld then cam.y - input.mouseY * cfg.ySpeed * input.deltaTime else cam.y;
            hasTarget && -360.0 <= pitch <= 360.0 && cfg.yMinLimit <= pitch <= cfg.yMaxLimit ==> r.y == pitch
    ensures var zoomed := cam.distance - input.scroll * cfg.zoomSpeed;
            hasTarget && cfg.minDistance <= zoomed <= cfg.maxDistance ==> r.distance == zoomed
    // the pitch and the zoom end inside their limits
    ensures hasTarget && cfg.yMinLimit <= cfg.yMaxLimit ==> cfg.yMinLimit <= r.y <= cfg.yMaxLimit
    ensures hasTarget && cfg.minDistance <= cfg.maxDistance ==> cfg.minDistance <= r.distance <= cfg.maxDistance
    // a pitch step is corrected by one turn and clamped; a zoom past a limit stops at it
    ensures var pitch := if input.mouseHeld then cam.y - input.mouseY * cfg.ySpeed * input.deltaTime else cam.y;
            hasTarget ==> r.y == ClampAngle(pitch, cfg.yMinLimit, cfg.yMaxLimit)
    ensures var zoomed := cam.distance - input.scroll * cfg.zoomSpeed;
            hasTarget && zoomed < cfg.minDistance ==> r.distance == cfg.minDistance
    ensures var zoomed := cam.distance - input.scroll * cfg.zoomSpeed;
            hasTarget && cfg.minDistance <= zoomed && cfg.maxDistance < zoomed ==> r.distance == cfg.maxDistance
  {
    if !hasTarget then cam
    else
      var x := if input.mouseHeld then cam.x + input.mouseX * cfg.xSpeed * input.deltaTime else cam.x;
      var y := if input.mouseHeld then cam.y - input.mouseY * cfg.ySpeed * input.deltaTime else cam.y;
      var y1 := ClampAngle(y, cfg.yMinLimit, cfg.yMaxLimit);
      var d := cam.distance - input.scroll * cfg.zoomSpeed;
      var d1 := Mathf.Clamp(d, cfg.minDistance, cfg.maxDistance);
      cam.(x := x, y := y1, distance := d1)
  }

  /** The pitch and zoom are within their limits. */
  predicate Settled(cfg: Config, cam: Camera)
  {
    && cfg.yMinLimit <= cam.y <= cfg.yMaxLimit
    && cfg.minDistance <= cam.distance <= cfg.maxDistance
  }

  /** A frame without mouse input leaves a settled camera where it is
      (pitch limits inside one turn); any frame with a target settles it. */
  lemma IdleFrameKeepsCamera(cfg: Config, cam: Camera, input: Input)
    requires -360.0 <= cfg.yMinLimit <= cfg.yMaxLimit <= 360.0
    requires cfg.minDistance <= cfg.maxDistance
    ensures Settled(cfg, LateUpdate(cfg, cam, true, input))
    ensures Settled(cfg, cam) && !input.mouseHeld && input.scroll == 0.0 ==> LateUpdate(cfg, cam, true, input) == cam
  {
  }

  /** The engine calls `LateUpdate` only while the component is enabled. */
  function Frame(cfg: Config, cam: Camera, hasTarget: bool, input: Input): (r: Camera)
    ensures !cam.enabled ==> r == cam
    ensures cam.enabled && !hasTarget ==> r == cam
    ensures r.enabled == cam.enabled
  {
    if cam.enabled then LateUpdate(cfg, cam, hasTarget, input) else cam
  }

  /** The camera after a sequence of frames. */
  function Frames(cfg: Config, cam: Camera, hasTarget: bool, inputs: seq<Input>): (r: Camera)
    ensures r.enabled == cam.enabled
    decreases |inputs|
  {
    if |inputs| == 0 then cam
    else Frames(cfg, Frame(cfg, cam, hasTarget, inputs[0]), hasTarget, inputs[1..])
  }

  /** A camera started without a target disables itself and then never
      moves, even if a target is assigned afterwards; one started with a
      target stays enabled and, after at least one frame, is settled. */
  lemma {:induction false} StartDecidesFrames(cfg: Config, cam: Camera, targetAtStart: bool, hasTarget: bool,
                                              eulerX: real, eulerY: real, inputs: seq<Input>)
    requires cfg.yMinLimit <= cfg.yMaxLimit && cfg.minDistance <= cfg.maxDistance
    ensures var c0 := Start(cam, targetAtStart, eulerX, eulerY);
            !targetAtStart ==> Frames(cfg, c0, hasTarget, inputs) == c0
    ensures var c0 := Start(cam, targetAtStart, eulerX, eulerY);
            targetAtStart && cam.enabled && hasTarget && |inputs| > 0 ==>
              && Frames(cfg, c0, hasTarget, inputs).enabled
              && Settled(cfg, Frames(cfg, c0, hasTarget, inputs))
    decreases |inputs|
  {
    var c0 := Start(cam, targetAtStart, eulerX, eulerY);
    if !targetAtStart {
      DisabledStays(cfg, c0, hasTarget, inputs);
    } else if cam.enabled && hasTarget && |inputs| > 0 {
      FramesKeepSettled(cfg, Frame(cfg, c0, hasTarget, inputs[0]), inputs[1..]);
    }
  }

  /** A disabled camera stays where it is, frame after frame. */
  lemma {:induction false} DisabledStays(cfg: Config, cam: Camera, hasTarget: bool, inputs: seq<Input>)
    requires !cam.enabled
    ensures Frames(cfg, cam, hasTarget, inputs) == cam
    decreases |inputs|
  {
    if |inputs| > 0 {
      DisabledStays(cfg, cam, hasTarget, inputs[1..]);
    }
  }

  /** Frames with a target keep an enabled camera settled. */
  lemma {:induction false} FramesKeepSettled(cfg: Config, cam: Camera, inputs: seq<Input>)
    requires cfg.yMinLimit <= cfg.yMaxLimit && cfg.minDistance <= cfg.maxDistance
    requires cam.enabled && Settled(cfg, cam)
    ensures Settled(cfg, Frames(cfg, cam, true, inputs))
    decreases |inputs|
  {
    if |inputs| > 0 {
      FramesKeepSettled(cfg, Frame(cfg, cam, true, inputs[0]), inputs[1..]);
    }
  }

  /** At the Inspector defaults (pitch limits -20 to 80, zoom 1 to 15):
      any frame settles the camera, an idle frame keeps a settled one, and
      a pitch of 370 is wrapped once to 10. */
  lemma DefaultsCamera(cam: Camera, input: Input)
    ensures Settled(Defaults, LateUpdate(Defaults, cam, true, input))
    ensures Settled(Defaults, cam) && !input.mouseHeld && input.scroll == 0.0 ==>
              LateUpdate(Defaults, cam, true, input) == cam
    ensures ClampAngle(370.0, Defaults.yMinLimit, Defaults.yMaxLimit) == 10.0
  {
    IdleFrameKeepsCamera(Defaults, cam, input);
  }
}
