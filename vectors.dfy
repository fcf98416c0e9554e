/** The engine's small math value types, over exact reals. */
module Vectors {

  datatype Vec3 = Vec3(x: real, y: real, z: real)

  /** A motion-curve sample: translation (x, y, z) and yaw (w), in degrees. */
  datatype Vec4 = Vec4(x: real, y: real, z: real, w: real)

  /** A rotation; its algebra is engine code and stays abstract here. */
  datatype Quat = Quat(w: real, x: real, y: real, z: real)

  const Zero4: Vec4 := Vec4(0.0, 0.0, 0.0, 0.0)

  function Add3(a: Vec3, b: Vec3): Vec3 { Vec3(a.x + b.x, a.y + b.y, a.z + b.z) }

  function Neg3(a: Vec3): Vec3 { Vec3(-a.x, -a.y, -a.z) }

  function Add4(a: Vec4, b: Vec4): (r: Vec4) { Vec4(a.x + b.x, a.y + b.y, a.z + b.z, a.w + b.w) }

  function Sub4(a: Vec4, b: Vec4): (r: Vec4) { Vec4(a.x - b.x, a.y - b.y, a.z - b.z, a.w - b.w) }

  function Scale4(a: Vec4, s: real): (r: Vec4) { Vec4(a.x * s, a.y * s, a.z * s, a.w * s) }

  /** Vector4::Lerp: `a * (1 - t) + b * t`. */
  function Lerp4(a: Vec4, b: Vec4, t: real): (r: Vec4)
  {
    Add4(Scale4(a, 1.0 - t), Scale4(b, t))
  }

  /** `v` lies between `lo` and `hi`, in whichever order those two come. */
  predicate Between(v: real, lo: real, hi: real)
  {
    (lo <= v <= hi) || (hi <= v <= lo)
  }

  /** Every component of `v` lies between the matching components of `a` and `b`. */
  predicate Between4(v: Vec4, a: Vec4, b: Vec4)
  {
    Between(v.x, a.x, b.x) && Between(v.y, a.y, b.y) && Between(v.z, a.z, b.z) && Between(v.w, a.w, b.w)
  }

  lemma MulNonNegative(a: real, b: real)
    requires 0.0 <= a && 0.0 <= b
    ensures 0.0 <= a * b
  {
  }

  /** A convex combination of two reals stays between them. */
  lemma LerpBetween(x: real, y: real, t: real)
    requires 0.0 <= t <= 1.0
    ensures Between(x * (1.0 - t) + y * t, x, y)
  {
    var v := x * (1.0 - t) + y * t;
    if x <= y {
      MulNonNegative(y - x, t);
      MulNonNegative(y - x, 1.0 - t);
      assert v - x == (y - x) * t;
      assert y - v == (y - x) * (1.0 - t);
    } else {
      MulNonNegative(x - y, t);
      MulNonNegative(x - y, 1.0 - t);
      assert x - v == (x - y) * t;
      assert v - y == (x - y) * (1.0 - t);
    }
  }

  /** A component of a blend stays between the blended components. */
  lemma ComponentBetween(v: real, x: real, y: real, t: real)
    requires 0.0 <= t <= 1.0 && v == x * (1.0 - t) + y * t
    ensures Between(v, x, y)
  {
    LerpBetween(x, y, t);
  }

  lemma Lerp4Between(a: Vec4, b: Vec4, t: real)
    requires 0.0 <= t <= 1.0
    ensures Between4(Lerp4(a, b, t), a, b)
  {
    var v := Lerp4(a, b, t);
    ComponentBetween(v.x, a.x, b.x, t);
    ComponentBetween(v.y, a.y, b.y, t);
    ComponentBetween(v.z, a.z, b.z, t);
    ComponentBetween(v.w, a.w, b.w, t);
  }
}
