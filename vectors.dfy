/** The glm vector arithmetic the engine uses, over exact reals.
    glm::distance and std::sqrt are not given a body here: distance
    comparisons are decided exactly on squared lengths (FartherThan), and
    the operations that really divide by a square root take the root as a
    parameter `sqrt`, about which they assume only SqrtPositive. */
module Vectors {

  datatype Vec2 = Vec2(x: real, y: real)
  datatype Vec3 = Vec3(x: real, y: real, z: real)

  const Zero2: Vec2 := Vec2(0.0, 0.0)

  function Add(a: Vec2, b: Vec2): Vec2 { Vec2(a.x + b.x, a.y + b.y) }
  function Sub(a: Vec2, b: Vec2): Vec2 { Vec2(a.x - b.x, a.y - b.y) }
  function Scale(a: Vec2, k: real): Vec2 { Vec2(a.x * k, a.y * k) }
  function Dot(a: Vec2, b: Vec2): real { a.x * b.x + a.y * b.y }
  /** z-component of the 3D cross product of two plane vectors. */
  function Cross(a: Vec2, b: Vec2): real { a.x * b.y - a.y * b.x }
  function Len2(a: Vec2): real { Dot(a, a) }
  function DistSq(a: Vec2, b: Vec2): real { Len2(Sub(a, b)) }

  function Sub3(a: Vec3, b: Vec3): Vec3 { Vec3(a.x - b.x, a.y - b.y, a.z - b.z) }
  function DistSq3(a: Vec3, b: Vec3): real
  {
    var d := Sub3(a, b);
    d.x * d.x + d.y * d.y + d.z * d.z
  }

  /** The product of two positive reals is positive. */
  lemma MulPos(a: real, b: real)
    requires a > 0.0 && b > 0.0
    ensures a * b > 0.0
  {
  }

  lemma Len2NonNegative(a: Vec2)
    ensures Len2(a) >= 0.0
  {
    assert a.x * a.x >= 0.0 && a.y * a.y >= 0.0;
  }

  /** `glm::distance(p, q) > d`, decided without a square root. */
  predicate FartherThan(p: Vec2, q: Vec2, d: real)
  {
    d < 0.0 || DistSq(p, q) > d * d
  }

  /** The same test on 3D points (used to decide whether the light moved). */
  predicate FartherThan3(p: Vec3, q: Vec3, d: real)
  {
    d < 0.0 || DistSq3(p, q) > d * d
  }

  /** FartherThan agrees with comparing the true distance s, whatever
      non-negative s squares to the squared distance. */
  lemma FartherThanIsDistance(p: Vec2, q: Vec2, d: real, s: real)
    requires s >= 0.0 && s * s == DistSq(p, q)
    ensures FartherThan(p, q, d) <==> s > d
  {
    if d >= 0.0 {
      assert s * s - d * d == (s - d) * (s + d);
      if s > d {
        MulPos(s - d, s + d);
      } else if d - s > 0.0 && s + d > 0.0 {
        MulPos(d - s, s + d);
      }
    }
  }

  lemma FartherThan3IsDistance(p: Vec3, q: Vec3, d: real, s: real)
    requires s >= 0.0 && s * s == DistSq3(p, q)
    ensures FartherThan3(p, q, d) <==> s > d
  {
    if d >= 0.0 {
      assert s * s - d * d == (s - d) * (s + d);
      if s > d {
        MulPos(s - d, s + d);
      } else if d - s > 0.0 && s + d > 0.0 {
        MulPos(d - s, s + d);
      }
    }
  }

  /** What the operations that divide by a root need: a positive argument
      has a positive root, so the division is defined. */
  ghost predicate SqrtPositive(sqrt: real -> real)
  {
    forall v :: 0.0 < v ==> 0.0 < sqrt(v)
  }

  /** An exact square root on the non-negative reals. */
  ghost predicate IsSqrt(sqrt: real -> real)
  {
    forall v :: 0.0 <= v ==> 0.0 <= sqrt(v) && sqrt(v) * sqrt(v) == v
  }

  lemma {:induction false} ExactSqrtIsPositive(sqrt: real -> real)
    requires IsSqrt(sqrt)
    ensures SqrtPositive(sqrt)
  {
    forall v | 0.0 < v
      ensures 0.0 < sqrt(v)
    {
      assert 0.0 <= sqrt(v) && sqrt(v) * sqrt(v) == v;
    }
  }

  /** Scaling by k multiplies the squared length by k*k. */
  lemma Len2Scale(a: Vec2, k: real)
    ensures Len2(Scale(a, k)) == k * k * Len2(a)
  {
    calc {
      Len2(Scale(a, k));
      (a.x * k) * (a.x * k) + (a.y * k) * (a.y * k);
      k * k * (a.x * a.x) + k * k * (a.y * a.y);
    }
  }

  /** Dividing a vector by its (positive) length gives a unit vector. */
  lemma UnitAfterDivide(a: Vec2, s: real)
    requires s > 0.0 && s * s == Len2(a)
    ensures Len2(Scale(a, 1.0 / s)) == 1.0
  {
    var k := 1.0 / s;
    assert k * s == 1.0;
    Len2Scale(a, k);
    calc {
      k * k * Len2(a);
      k * k * (s * s);
      (k * s) * (k * s);
      1.0;
    }
  }

  /** Moving c by k along axis moves its projection on axis by k * |axis|^2. */
  lemma DotShift(c: Vec2, axis: Vec2, k: real)
    ensures Dot(Add(c, Scale(axis, k)), axis) == Dot(c, axis) + k * Len2(axis)
  {
    calc {
      Dot(Add(c, Scale(axis, k)), axis);
      (c.x + axis.x * k) * axis.x + (c.y + axis.y * k) * axis.y;
      c.x * axis.x + c.y * axis.y + k * (axis.x * axis.x + axis.y * axis.y);
    }
  }
}
