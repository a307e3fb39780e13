/**
  The slice of GLM vector and matrix algebra the camera needs, over the reals.
  Matrices are stored the GLM way: column-major, `m[col][row]`.
 */
module Vec {

  datatype Vec2 = Vec2(x: real, y: real)

  datatype Vec3 = Vec3(x: real, y: real, z: real)

  datatype Vec4 = Vec4(x: real, y: real, z: real, w: real)

  /** A 4x4 matrix given by its four columns. */
  datatype Mat4 = Mat4(c0: Vec4, c1: Vec4, c2: Vec4, c3: Vec4)

  const Zero3 := Vec3(0.0, 0.0, 0.0)

  function Add(a: Vec3, b: Vec3): Vec3 {
    Vec3(a.x + b.x, a.y + b.y, a.z + b.z)
  }

  function Sub(a: Vec3, b: Vec3): Vec3 {
    Vec3(a.x - b.x, a.y - b.y, a.z - b.z)
  }

  function Scale(a: Vec3, k: real): Vec3 {
    Vec3(a.x * k, a.y * k, a.z * k)
  }

  function Neg(a: Vec3): Vec3 {
    Vec3(-a.x, -a.y, -a.z)
  }

  function Dot(a: Vec3, b: Vec3): real {
    a.x * b.x + a.y * b.y + a.z * b.z
  }

  /** `v` has unit length. */
  predicate Unit(v: Vec3) {
    Dot(v, v) == 1.0
  }

  /** Three pairwise perpendicular unit vectors. */
  predicate Orthonormal(a: Vec3, b: Vec3, c: Vec3) {
    Unit(a) && Unit(b) && Unit(c) && Dot(a, b) == 0.0 && Dot(a, c) == 0.0 && Dot(b, c) == 0.0
  }

  /** Homogeneous point with w = 1. */
  function Point(p: Vec3): Vec4 {
    Vec4(p.x, p.y, p.z, 1.0)
  }

  /** Homogeneous direction with w = 0. */
  function Direction(p: Vec3): Vec4 {
    Vec4(p.x, p.y, p.z, 0.0)
  }

  function Comp(v: Vec4, i: nat): real
    requires i < 4
  {
    if i == 0 then v.x else if i == 1 then v.y else if i == 2 then v.z else v.w
  }

  function Column(m: Mat4, c: nat): Vec4
    requires c < 4
  {
    if c == 0 then m.c0 else if c == 1 then m.c1 else if c == 2 then m.c2 else m.c3
  }

  /** The GLM element `m[c][r]`. */
  function At(m: Mat4, c: nat, r: nat): real
    requires c < 4 && r < 4
  {
    Comp(Column(m, c), r)
  }

  /** `glm::mat4(1.0f)`. */
  const Identity := Mat4(Vec4(1.0, 0.0, 0.0, 0.0), Vec4(0.0, 1.0, 0.0, 0.0),
                         Vec4(0.0, 0.0, 1.0, 0.0), Vec4(0.0, 0.0, 0.0, 1.0))

  /** `m * v`: row r of the result is the sum over columns c of m[c][r] * v[c]. */
  function MulVec(m: Mat4, v: Vec4): Vec4 {
    Vec4(m.c0.x * v.x + m.c1.x * v.y + m.c2.x * v.z + m.c3.x * v.w,
         m.c0.y * v.x + m.c1.y * v.y + m.c2.y * v.z + m.c3.y * v.w,
         m.c0.z * v.x + m.c1.z * v.y + m.c2.z * v.z + m.c3.z * v.w,
         m.c0.w * v.x + m.c1.w * v.y + m.c2.w * v.z + m.c3.w * v.w)
  }

  /** `a * b`: column c of the product is `a` applied to column c of `b`. */
  function Mul(a: Mat4, b: Mat4): Mat4 {
    Mat4(MulVec(a, b.c0), MulVec(a, b.c1), MulVec(a, b.c2), MulVec(a, b.c3))
  }

  /** Adding `u·a` and taking away `u·b` is adding `u·(a - b)`. */
  lemma ScaleSub(p: Vec3, u: Vec3, a: real, b: real)
    ensures Sub(Add(p, Scale(u, a)), Scale(u, b)) == Add(p, Scale(u, a - b))
  {
    assert u.x * (a - b) == u.x * a - u.x * b;
    assert u.y * (a - b) == u.y * a - u.y * b;
    assert u.z * (a - b) == u.z * a - u.z * b;
  }

  /** Taking away `u·a` and adding `u·b` is adding `u·(b - a)`. */
  lemma SubScaleAdd(p: Vec3, u: Vec3, a: real, b: real)
    ensures Add(Sub(p, Scale(u, a)), Scale(u, b)) == Add(p, Scale(u, b - a))
  {
    assert u.x * (b - a) == u.x * b - u.x * a;
    assert u.y * (b - a) == u.y * b - u.y * a;
    assert u.z * (b - a) == u.z * b - u.z * a;
  }

  lemma AddSubCancel(a: Vec3, d: Vec3)
    ensures Sub(Add(a, d), d) == a
    ensures Add(Sub(a, d), d) == a
  {
  }
}
