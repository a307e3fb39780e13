/**
  The free-fly camera of include/LearnOpenGL/Camera.h: configurable zoom
  bounds and a view matrix built by hand as rotation times translation.
 */
module Camera {
  import opened Vec
  import opened CameraCore

  const DefaultYaw: real := -90.0
  const DefaultPitch: real := 0.0
  const DefaultSpeed: real := 2.5
  const DefaultSensitivity: real := 0.1
  const DefaultZoom: real := 45.0
  const DefaultMaxZoom: real := 45.0
  const DefaultMinZoom: real := 1.0

  datatype Camera = Camera(
    position: Vec3,
    basis: Basis,
    worldUp: Vec3,
    yaw: real,
    pitch: real,
    movementSpeed: real,
    mouseSensitivity: real,
    zoom: real,
    maxZoom: real,
    minZoom: real)

  /**
    The vector constructor (the scalar one builds the same vectors from its
    components): stores position, world-up and the two angles, takes every
    other field from the defaults, then derives the basis.
   */
  function Construct(position: Vec3, up: Vec3, yaw: real, pitch: real, orient: Orient): (c: Camera)
    ensures c.position == position && c.worldUp == up && c.yaw == yaw && c.pitch == pitch
    ensures c.basis == orient(yaw, pitch, up)
    ensures c.movementSpeed == 2.5 && c.mouseSensitivity == 0.1
    ensures c.zoom == 45.0 && c.maxZoom == 45.0 && c.minZoom == 1.0
  {
    Camera(position, orient(yaw, pitch, up), up, yaw, pitch,
           DefaultSpeed, DefaultSensitivity, DefaultZoom, DefaultMaxZoom, DefaultMinZoom)
  }

  /** The scalar constructor. */
  function ConstructScalars(posX: real, posY: real, posZ: real, upX: real, upY: real, upZ: real,
                            yaw: real, pitch: real, orient: Orient): (c: Camera)
    ensures c == Construct(Vec3(posX, posY, posZ), Vec3(upX, upY, upZ), yaw, pitch, orient)
    ensures c.position == Vec3(posX, posY, posZ) && c.worldUp == Vec3(upX, upY, upZ)
  {
    Construct(Vec3(posX, posY, posZ), Vec3(upX, upY, upZ), yaw, pitch, orient)
  }

  /** The constructor with every argument defaulted. */
  function DefaultCamera(orient: Orient): (c: Camera)
    ensures c.position == Zero3 && c.worldUp == Vec3(0.0, 1.0, 0.0)
    ensures c.yaw == -90.0 && c.pitch == 0.0 && c.zoom == 45.0
  {
    Construct(Zero3, Vec3(0.0, 1.0, 0.0), DefaultYaw, DefaultPitch, orient)
  }

  /** `translation`: identity with column 3 set to -Position. */
  function Translation(p: Vec3): Mat4 {
    Mat4(Identity.c0, Identity.c1, Identity.c2, Vec4(-p.x, -p.y, -p.z, 1.0))
  }

  /** `rotation`: identity whose rows 0, 1, 2 are Right, Up and -Front. */
  function Rotation(b: Basis): Mat4 {
    Mat4(Vec4(b.right.x, b.up.x, -b.front.x, 0.0),
         Vec4(b.right.y, b.up.y, -b.front.y, 0.0),
         Vec4(b.right.z, b.up.z, -b.front.z, 0.0),
         Vec4(0.0, 0.0, 0.0, 1.0))
  }

  /** `GetViewMatrix`: rotation * translation. */
  function ViewMatrix(c: Camera): (m: Mat4)
    ensures MulVec(m, Point(c.position)) == Vec4(0.0, 0.0, 0.0, 1.0)
    ensures m.c0.w == 0.0 && m.c1.w == 0.0 && m.c2.w == 0.0 && m.c3.w == 1.0
  {
    Mul(Rotation(c.basis), Translation(c.position))
  }

  /**
    The product in closed form: the look-at layout, whose last column is
    (-Right·P, -Up·P, Front·P, 1).
   */
  lemma ViewMatrixClosedForm(c: Camera)
    ensures var b := c.basis; var p := c.position;
      ViewMatrix(c) == Mat4(Vec4(b.right.x, b.up.x, -b.front.x, 0.0),
                            Vec4(b.right.y, b.up.y, -b.front.y, 0.0),
                            Vec4(b.right.z, b.up.z, -b.front.z, 0.0),
                            Vec4(-Dot(b.right, p), -Dot(b.up, p), Dot(b.front, p), 1.0))
  {
  }

  /**
    For an orthonormal basis the view matrix sends the point one unit ahead
    of the camera to (0, 0, -1), and the Right and Up directions to the eye
    x and y axes.
   */
  lemma ViewMatrixLooksDownNegativeZ(c: Camera)
    requires Orthonormal(c.basis.front, c.basis.right, c.basis.up)
    ensures MulVec(ViewMatrix(c), Point(Add(c.position, c.basis.front))) == Vec4(0.0, 0.0, -1.0, 1.0)
    ensures MulVec(ViewMatrix(c), Direction(c.basis.right)) == Vec4(1.0, 0.0, 0.0, 0.0)
    ensures MulVec(ViewMatrix(c), Direction(c.basis.up)) == Vec4(0.0, 1.0, 0.0, 0.0)
  {
    var b := c.basis;
    var p := c.position;
    ViewMatrixApply(c, b.front, 1.0);
    ViewMatrixApply(c, b.right, 0.0);
    ViewMatrixApply(c, b.up, 0.0);
    assert Point(Add(p, b.front)) == Vec4(p.x + b.front.x, p.y + b.front.y, p.z + b.front.z, 1.0);
    ViewMatrixApply(c, Add(p, b.front), 1.0);
    DotAdd(b.right, p, b.front);
    DotAdd(b.up, p, b.front);
    DotAdd(b.front, p, b.front);
  }

  /** The view matrix applied to (v, w): each eye coordinate is a dot product with the basis. */
  lemma ViewMatrixApply(c: Camera, v: Vec3, w: real)
    ensures var b := c.basis; var p := c.position;
      MulVec(ViewMatrix(c), Vec4(v.x, v.y, v.z, w))
        == Vec4(Dot(b.right, v) - w * Dot(b.right, p), Dot(b.up, v) - w * Dot(b.up, p),
                w * Dot(b.front, p) - Dot(b.front, v), w)
  {
    ViewMatrixClosedForm(c);
  }

  lemma DotAdd(a: Vec3, u: Vec3, v: Vec3)
    ensures Dot(a, Add(u, v)) == Dot(a, u) + Dot(a, v)
  {
  }

  /** `ProcessKeyboard`: only the position changes. */
  function ProcessKeyboard(c: Camera, dir: Movement, deltaTime: real): (r: Camera)
    ensures r == c.(position := Move(c.position, c.basis, c.movementSpeed, dir, deltaTime))
    ensures dir == Forward ==> r.position == Add(c.position, Scale(c.basis.front, c.movementSpeed * deltaTime))
    ensures dir == Backward ==> r.position == Sub(c.position, Scale(c.basis.front, c.movementSpeed * deltaTime))
    ensures dir == Left ==> r.position == Sub(c.position, Scale(c.basis.right, c.movementSpeed * deltaTime))
    ensures dir == Right ==> r.position == Add(c.position, Scale(c.basis.right, c.movementSpeed * deltaTime))
  {
    c.(position := Move(c.position, c.basis, c.movementSpeed, dir, deltaTime))
  }

  /** Forward then backward, or left then right, with the same `dt` restores the camera. */
  lemma KeyboardOppositeRestores(c: Camera, dir: Movement, dt: real)
    ensures ProcessKeyboard(ProcessKeyboard(c, dir, dt), Opposite(dir), dt) == c
  {
    MoveThenOppositeRestores(c.position, c.basis, c.movementSpeed, dir, dt);
  }

  /**
    `ProcessMouseMovement`: yaw and pitch move by the scaled offsets, pitch is
    clamped to [-89, 89] when asked, and the basis is re-derived from the new
    angles; position, zoom and speeds are untouched.
   */
  function ProcessMouseMovement(c: Camera, xoffset: real, yoffset: real, constrainPitch: bool,
                                orient: Orient): (r: Camera)
    ensures r.yaw == c.yaw + xoffset * c.mouseSensitivity
    ensures constrainPitch ==> -89.0 <= r.pitch <= 89.0
    ensures constrainPitch ==> r.pitch == Clamp(c.pitch + yoffset * c.mouseSensitivity, -89.0, 89.0)
    ensures !constrainPitch ==> r.pitch == c.pitch + yoffset * c.mouseSensitivity
    ensures r.basis == orient(r.yaw, r.pitch, c.worldUp)
    ensures r == c.(yaw := r.yaw, pitch := r.pitch, basis := r.basis)
  {
    var a := Look(c.yaw, c.pitch, c.mouseSensitivity, xoffset, yoffset, constrainPitch);
    c.(yaw := a.yaw, pitch := a.pitch, basis := orient(a.yaw, a.pitch, c.worldUp))
  }

  /** `ProcessMouseScroll` with the camera's own bounds; nothing but the zoom changes. */
  function ProcessMouseScroll(c: Camera, yoffset: real): (r: Camera)
    ensures c.minZoom <= c.maxZoom ==> c.minZoom <= r.zoom <= c.maxZoom
    ensures c.minZoom <= c.maxZoom && c.minZoom <= c.zoom <= c.maxZoom ==>
              r.zoom == Clamp(c.zoom - yoffset, c.minZoom, c.maxZoom)
    ensures c.minZoom <= c.maxZoom && !(c.minZoom <= c.zoom <= c.maxZoom) ==>
              r.zoom == Clamp(c.zoom, c.minZoom, c.maxZoom)
    ensures r == c.(zoom := r.zoom)
  {
    c.(zoom := ScrollZoom(c.zoom, c.minZoom, c.maxZoom, yoffset))
  }

  /** Scrolling by +10 from the default zoom of 45 gives 35; a huge scroll stops at 1. */
  lemma ScrollExample(orient: Orient)
    ensures ProcessMouseScroll(DefaultCamera(orient), 10.0).zoom == 35.0
    ensures ProcessMouseScroll(ProcessMouseScroll(DefaultCamera(orient), 100.0), 100.0).zoom == 1.0
  {
  }
}
