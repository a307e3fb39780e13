/**
  The older free-fly camera of Headers/Camera.h: no zoom-bound fields (the
  bounds 1 and 45 are written into the scroll handler) and a view matrix
  delegated to GLM's look-at.
 */
module LegacyCamera {
  import opened Vec
  import opened CameraCore

  const MinZoom: real := 1.0
  const MaxZoom: real := 45.0

  datatype Camera = Camera(
    position: Vec3,
    basis: Basis,
    worldUp: Vec3,
    yaw: real,
    pitch: real,
    movementSpeed: real,
    mouseSensitivity: real,
    zoom: real)

  /**
    The vector constructor. Its initialiser list sets Front to (0, 0, -1),
    which `updateCameraVectors` then overwrites, so only the derived basis is
    observable.
   */
  function Construct(position: Vec3, up: Vec3, yaw: real, pitch: real, orient: Orient): (c: Camera)
    ensures c.position == position && c.worldUp == up && c.yaw == yaw && c.pitch == pitch
    ensures c.basis == orient(yaw, pitch, up)
    ensures c.movementSpeed == 2.5 && c.mouseSensitivity == 0.1 && c.zoom == 45.0
  {
    Camera(position, orient(yaw, pitch, up), up, yaw, pitch, 2.5, 0.1, 45.0)
  }

  /** The scalar constructor: the same fields from components. */
  function ConstructScalars(posX: real, posY: real, posZ: real, upX: real, upY: real, upZ: real,
                            yaw: real, pitch: real, orient: Orient): (c: Camera)
    ensures c.position == Vec3(posX, posY, posZ) && c.worldUp == Vec3(upX, upY, upZ)
    ensures c.yaw == yaw && c.pitch == pitch && c.basis == orient(yaw, pitch, c.worldUp)
    ensures c.movementSpeed == 2.5 && c.mouseSensitivity == 0.1 && c.zoom == 45.0
  {
    Camera(Vec3(posX, posY, posZ), orient(yaw, pitch, Vec3(upX, upY, upZ)), Vec3(upX, upY, upZ),
           yaw, pitch, 2.5, 0.1, 45.0)
  }

  /** `ProcessKeyboard`: only the position changes. */
  function ProcessKeyboard(c: Camera, dir: Movement, deltaTime: real): (r: Camera)
    ensures r == c.(position := Move(c.position, c.basis, c.movementSpeed, dir, deltaTime))
  {
    c.(position := Move(c.position, c.basis, c.movementSpeed, dir, deltaTime))
  }

  /** Opposite directions with equal `dt` cancel. */
  lemma KeyboardOppositeRestores(c: Camera, dir: Movement, dt: real)
    ensures ProcessKeyboard(ProcessKeyboard(c, dir, dt), Opposite(dir), dt) == c
  {
    MoveThenOppositeRestores(c.position, c.basis, c.movementSpeed, dir, dt);
  }

  /** `ProcessMouseMovement`: the same update as the newer camera. */
  function ProcessMouseMovement(c: Camera, xoffset: real, yoffset: real, constrainPitch: bool,
                                orient: Orient): (r: Camera)
    ensures r.yaw == c.yaw + xoffset * c.mouseSensitivity
    ensures constrainPitch ==> -89.0 <= r.pitch <= 89.0
    ensures constrainPitch ==> r.pitch == Clamp(c.pitch + yoffset * c.mouseSensitivity, -89.0, 89.0)
    ensures !constrainPitch ==> r.pitch == c.pitch + yoffset * c.mouseSensitivity
    ensures r.basis == orient(r.yaw, r.pitch, c.worldUp)
    ensures r == c.(yaw := r.yaw, pitch := r.pitch, basis := r.basis)
  {
    var a := Look(c.yaw, c.pitch, c.mouseSensitivity, xoffset, yoffset, constrainPitch);
    c.(yaw := a.yaw, pitch := a.pitch, basis := orient(a.yaw, a.pitch, c.worldUp))
  }

  /** `ProcessMouseScroll` with the fixed bounds 1 and 45. */
  function ProcessMouseScroll(c: Camera, yoffset: real): (r: Camera)
    ensures 1.0 <= r.zoom <= 45.0
    ensures 1.0 <= c.zoom <= 45.0 ==> r.zoom == Clamp(c.zoom - yoffset, 1.0, 45.0)
    ensures !(1.0 <= c.zoom <= 45.0) ==> r.zoom == Clamp(c.zoom, 1.0, 45.0)
    ensures r == c.(zoom := r.zoom)
  {
    c.(zoom := ScrollZoom(c.zoom, MinZoom, MaxZoom, yoffset))
  }
}
