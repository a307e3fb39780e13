/**
  The arithmetic shared by both copies of the free-fly camera
  (include/LearnOpenGL/Camera.h and the older Headers/Camera.h):
  the keyboard movement step, the mouse-look update with its pitch clamp,
  and the scroll-zoom clamp.
 */
module CameraCore {
  import opened Vec

  /** `Camera_Movement`. */
  datatype Movement = Forward | Backward | Left | Right

  /** The derived orientation vectors `Front`, `Right` and `Up`. */
  datatype Basis = Basis(front: Vec3, right: Vec3, up: Vec3)

  /**
    `updateCameraVectors`: trigonometry and normalisation from yaw, pitch
    (degrees) and the world-up vector. It is not modelled; every operation
    that recomputes the basis takes it as a parameter.
   */
  type Orient = (real, real, Vec3) -> Basis

  const PitchLimit: real := 89.0

  /** Ordinary clamp of `v` into `[lo, hi]`, the reference the zoom update is compared with. */
  function Clamp(v: real, lo: real, hi: real): (r: real)
    requires lo <= hi
    ensures lo <= r <= hi
    ensures lo <= v <= hi ==> r == v
    ensures v < lo ==> r == lo
    ensures v > hi ==> r == hi
  {
    if v < lo then lo else if v > hi then hi else v
  }

  /**
    The movement step of `ProcessKeyboard`: `velocity = speed * dt`, then
    `position` moves along `front` (forward, backward) or `right` (left, right).
   */
  function Move(position: Vec3, b: Basis, speed: real, dir: Movement, dt: real): (r: Vec3)
    ensures dir == Forward ==> r == Add(position, Scale(b.front, speed * dt))
    ensures dir == Backward ==> r == Sub(position, Scale(b.front, speed * dt))
    ensures dir == Left ==> r == Sub(position, Scale(b.right, speed * dt))
    ensures dir == Right ==> r == Add(position, Scale(b.right, speed * dt))
  {
    var velocity := speed * dt;
    match dir
    case Forward => Add(position, Scale(b.front, velocity))
    case Backward => Sub(position, Scale(b.front, velocity))
    case Left => Sub(position, Scale(b.right, velocity))
    case Right => Add(position, Scale(b.right, velocity))
  }

  /** The direction whose step undoes a step in `dir`. */
  function Opposite(dir: Movement): (r: Movement)
    ensures r != dir
  {
    match dir
    case Forward => Backward
    case Backward => Forward
    case Left => Right
    case Right => Left
  }

  /** A step followed by the opposite step with the same `dt` returns to the start. */
  lemma MoveThenOppositeRestores(position: Vec3, b: Basis, speed: real, dir: Movement, dt: real)
    ensures Move(Move(position, b, speed, dir, dt), b, speed, Opposite(dir), dt) == position
  {
    AddSubCancel(position, Scale(b.front, speed * dt));
    AddSubCancel(position, Scale(b.right, speed * dt));
  }

  /** The two-sided pitch clamp of `ProcessMouseMovement`. */
  function ClampPitch(pitch: real): (r: real)
    ensures -PitchLimit <= r <= PitchLimit
    ensures -PitchLimit <= pitch <= PitchLimit ==> r == pitch
    ensures pitch > PitchLimit ==> r == PitchLimit
    ensures pitch < -PitchLimit ==> r == -PitchLimit
  {
    var p := if pitch > PitchLimit then PitchLimit else pitch;
    if p < -PitchLimit then -PitchLimit else p
  }

  /** The new (yaw, pitch) after `ProcessMouseMovement`. */
  datatype Angles = Angles(yaw: real, pitch: real)

  /**
    Both offsets are scaled by the sensitivity and added to yaw and pitch;
    only pitch is clamped, and only when `constrainPitch` is set.
   */
  function Look(yaw: real, pitch: real, sensitivity: real, xoffset: real, yoffset: real,
                constrainPitch: bool): (r: Angles)
    ensures r.yaw == yaw + xoffset * sensitivity
    ensures constrainPitch ==> -PitchLimit <= r.pitch <= PitchLimit
    ensures constrainPitch ==> r.pitch == Clamp(pitch + yoffset * sensitivity, -PitchLimit, PitchLimit)
    ensures !constrainPitch ==> r.pitch == pitch + yoffset * sensitivity
  {
    var x := xoffset * sensitivity;
    var y := yoffset * sensitivity;
    var p := pitch + y;
    Angles(yaw + x, if constrainPitch then ClampPitch(p) else p)
  }

  /**
    `ProcessMouseScroll`: the offset is subtracted only when the zoom is in
    `[minZoom, maxZoom]`; then the value is pushed up to `minZoom` and down to
    `maxZoom`, in that order.
   */
  function ScrollZoom(zoom: real, minZoom: real, maxZoom: real, yoffset: real): (r: real)
    ensures minZoom <= maxZoom ==> minZoom <= r <= maxZoom
    ensures minZoom <= maxZoom && minZoom <= zoom <= maxZoom ==> r == Clamp(zoom - yoffset, minZoom, maxZoom)
    ensures minZoom <= maxZoom && !(minZoom <= zoom <= maxZoom) ==> r == Clamp(zoom, minZoom, maxZoom)
    ensures minZoom > maxZoom ==> r == maxZoom
  {
    var z1 := if minZoom <= zoom && zoom <= maxZoom then zoom - yoffset else zoom;
    var z2 := if z1 <= minZoom then minZoom else z1;
    if z2 >= maxZoom then maxZoom else z2
  }

  /** Zoom stays within its bounds over any sequence of scroll offsets. */
  function ScrollAll(zoom: real, minZoom: real, maxZoom: real, offsets: seq<real>): (r: real)
    requires minZoom <= maxZoom
    ensures |offsets| > 0 ==> minZoom <= r <= maxZoom
    ensures |offsets| == 0 ==> r == zoom
    decreases |offsets|
  {
    if |offsets| == 0 then zoom
    else ScrollAll(ScrollZoom(zoom, minZoom, maxZoom, offsets[0]), minZoom, maxZoom, offsets[1..])
  }

  /** Pitch stays in [-89, 89] over any sequence of constrained look offsets. */
  function LookAll(a: Angles, sensitivity: real, offsets: seq<(real, real)>): (r: Angles)
    ensures |offsets| > 0 ==> -PitchLimit <= r.pitch <= PitchLimit
    ensures |offsets| == 0 ==> r == a
    decreases |offsets|
  {
    if |offsets| == 0 then a
    else LookAll(Look(a.yaw, a.pitch, sensitivity, offsets[0].0, offsets[0].1, true), sensitivity, offsets[1..])
  }
}
