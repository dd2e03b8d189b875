// Exact-real stand-ins for the OpenTK vector operations the core uses.
module Geometry {
  /** OpenTK's Vector3, with exact reals in place of 32-bit floats. */
  datatype Vec3 = Vec3(x: real, y: real, z: real)

  /** A camera basis: what each camera's UpdateVectors writes. */
  datatype Frame = Frame(front: Vec3, right: Vec3, up: Vec3)

  /** The three arguments handed to Matrix4.LookAt by GetViewMatrix. */
  datatype View = View(eye: Vec3, target: Vec3, up: Vec3)

  const Zero: Vec3 := Vec3(0.0, 0.0, 0.0)
  const UnitX: Vec3 := Vec3(1.0, 0.0, 0.0)
  const UnitY: Vec3 := Vec3(0.0, 1.0, 0.0)
  const UnitZ: Vec3 := Vec3(0.0, 0.0, 1.0)

  function Add(a: Vec3, b: Vec3): Vec3 { Vec3(a.x + b.x, a.y + b.y, a.z + b.z) }
  function Sub(a: Vec3, b: Vec3): Vec3 { Vec3(a.x - b.x, a.y - b.y, a.z - b.z) }
  function Neg(a: Vec3): Vec3 { Vec3(-a.x, -a.y, -a.z) }
  /** `a * k` */
  function Scale(a: Vec3, k: real): Vec3 { Vec3(a.x * k, a.y * k, a.z * k) }
  function Dot(a: Vec3, b: Vec3): real { a.x * b.x + a.y * b.y + a.z * b.z }
  function Cross(a: Vec3, b: Vec3): Vec3 {
    Vec3(a.y * b.z - a.z * b.y, a.z * b.x - a.x * b.z, a.x * b.y - a.y * b.x)
  }
  /** The square of Vector3.Length. */
  function LengthSquared(a: Vec3): real { Dot(a, a) }

  /** Vector3.Lerp: `blend * (b - a) + a`, coordinate by coordinate. */
  function Lerp(a: Vec3, b: Vec3, blend: real): Vec3 {
    Vec3(blend * (b.x - a.x) + a.x, blend * (b.y - a.y) + a.y, blend * (b.z - a.z) + a.z)
  }

  /** c lies in the closed interval spanned by a and b, whichever is larger. */
  predicate Between(a: real, b: real, c: real) {
    (a <= c <= b) || (b <= c <= a)
  }

  /** Each coordinate of c lies between the matching coordinates of a and b. */
  predicate InBox(a: Vec3, b: Vec3, c: Vec3) {
    Between(a.x, b.x, c.x) && Between(a.y, b.y, c.y) && Between(a.z, b.z, c.z)
  }

  /** Math.Clamp / MathHelper.Clamp for lo <= hi. */
  function Clamp(v: real, lo: real, hi: real): real
    requires lo <= hi
  {
    if v < lo then lo else if v > hi then hi else v
  }

  lemma ClampFacts(v: real, lo: real, hi: real)
    requires lo <= hi
    ensures lo <= Clamp(v, lo, hi) <= hi
    ensures lo <= v <= hi ==> Clamp(v, lo, hi) == v
    ensures Clamp(Clamp(v, lo, hi), lo, hi) == Clamp(v, lo, hi)
  {
  }

  lemma ProductNonNegative(a: real, b: real)
    requires 0.0 <= a && 0.0 <= b
    ensures 0.0 <= a * b
  {
  }

  /** A blend in [0,1] stays between the two ends. */
  lemma BlendBetween(a: real, b: real, t: real)
    requires 0.0 <= t <= 1.0
    ensures Between(a, b, t * (b - a) + a)
  {
    if a <= b {
      ProductNonNegative(t, b - a);
      ProductNonNegative(1.0 - t, b - a);
    } else {
      ProductNonNegative(t, a - b);
      ProductNonNegative(1.0 - t, a - b);
    }
  }

  lemma LerpInBox(a: Vec3, b: Vec3, t: real)
    requires 0.0 <= t <= 1.0
    ensures InBox(a, b, Lerp(a, b, t))
  {
    BlendBetween(a.x, b.x, t);
    BlendBetween(a.y, b.y, t);
    BlendBetween(a.z, b.z, t);
  }

  lemma LerpDifference(a: Vec3, b: Vec3, u: real, v: real)
    ensures Sub(Lerp(a, b, v), Lerp(a, b, u)) == Scale(Sub(b, a), v - u)
  {
    assert v * (b.x - a.x) - u * (b.x - a.x) == (b.x - a.x) * (v - u);
    assert v * (b.y - a.y) - u * (b.y - a.y) == (b.y - a.y) * (v - u);
    assert v * (b.z - a.z) - u * (b.z - a.z) == (b.z - a.z) * (v - u);
  }
}
