/**
 * Exact-real stand-ins for the glm vector types the engine uses (vec2, vec3,
 * quat) and the handful of operations the physics step applies to them.
 * Float rounding is not modelled: every identity below holds over `real`.
 */
module Vectors {

  datatype Vec3 = Vec3(x: real, y: real, z: real)

  datatype Vec2 = Vec2(x: real, y: real)

  /** A quaternion in glm's constructor order (w first). */
  datatype Quat = Quat(w: real, x: real, y: real, z: real)

  const Zero: Vec3 := Vec3(0.0, 0.0, 0.0)

  function Add(a: Vec3, b: Vec3): Vec3 { Vec3(a.x + b.x, a.y + b.y, a.z + b.z) }

  function Sub(a: Vec3, b: Vec3): Vec3 { Vec3(a.x - b.x, a.y - b.y, a.z - b.z) }

  function Neg(a: Vec3): Vec3 { Vec3(-a.x, -a.y, -a.z) }

  /** `v * s` for a vector and a scalar. */
  function Scale(a: Vec3, s: real): Vec3 { Vec3(a.x * s, a.y * s, a.z * s) }

  /** `a * b` for two vectors: the component-wise product. */
  function Mul(a: Vec3, b: Vec3): Vec3 { Vec3(a.x * b.x, a.y * b.y, a.z * b.z) }

  function Dot(a: Vec3, b: Vec3): real { a.x * b.x + a.y * b.y + a.z * b.z }

  function Abs(r: real): real { if r < 0.0 then -r else r }

  function Min(a: real, b: real): real { if a <= b then a else b }

  function Max(a: real, b: real): real { if a >= b then a else b }

  predicate IsUnit(n: Vec3) { Dot(n, n) == 1.0 }

  /** The part of `v` orthogonal to the normal `n`. */
  function Tangential(v: Vec3, n: Vec3): Vec3 { Sub(v, Scale(n, Dot(v, n))) }

  /** Moving a point along `n` by `s` changes its distance along `n` by `s * |n|^2`. */
  lemma DotAlong(p: Vec3, n: Vec3, s: real)
    ensures Dot(Add(p, Scale(n, s)), n) == Dot(p, n) + s * Dot(n, n)
  {
    calc {
      Dot(Add(p, Scale(n, s)), n);
      (p.x + n.x * s) * n.x + (p.y + n.y * s) * n.y + (p.z + n.z * s) * n.z;
      p.x * n.x + p.y * n.y + p.z * n.z + s * (n.x * n.x + n.y * n.y + n.z * n.z);
    }
  }

  /** Adding a multiple of `n` leaves the tangential part unchanged, for a unit `n`. */
  lemma TangentialAlong(v: Vec3, n: Vec3, s: real)
    requires IsUnit(n)
    ensures Tangential(Add(v, Scale(n, s)), n) == Tangential(v, n)
  {
    DotAlong(v, n, s);
    var d := Dot(v, n);
    assert Dot(Add(v, Scale(n, s)), n) == d + s;
    calc {
      Tangential(Add(v, Scale(n, s)), n);
      Sub(Add(v, Scale(n, s)), Scale(n, d + s));
      { assert n.x * s - n.x * (d + s) == -(n.x * d);
        assert n.y * s - n.y * (d + s) == -(n.y * d);
        assert n.z * s - n.z * (d + s) == -(n.z * d); }
      Sub(v, Scale(n, d));
    }
  }

  lemma MulNonNegative(a: real, b: real)
    requires a >= 0.0 && b >= 0.0
    ensures a * b >= 0.0
  {
  }

  /** A non-negative factor can be moved out of an absolute value. */
  lemma AbsScale(h: real, x: real)
    requires h >= 0.0
    ensures h * Abs(x) == Abs(h * x)
  {
    if x < 0.0 {
      assert h * x <= 0.0;
    } else {
      assert h * x >= 0.0;
    }
  }
}
