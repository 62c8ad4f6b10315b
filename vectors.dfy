/** Exact-arithmetic stand-ins for the p5.Vector and THREE.Vector2/Vector3 values
    the simulations use. Vectors are values here: every in-place `add`/`mult`
    of the source becomes a reassignment of a field holding a vector. */
module Vectors {

  datatype Vec2 = Vec2(x: real, y: real)

  datatype Vec3 = Vec3(x: real, y: real, z: real)

  function Add3(a: Vec3, b: Vec3): Vec3 {
    Vec3(a.x + b.x, a.y + b.y, a.z + b.z)
  }

  function Scale3(v: Vec3, s: real): Vec3 {
    Vec3(v.x * s, v.y * s, v.z * s)
  }

  function Add2(a: Vec2, b: Vec2): Vec2 {
    Vec2(a.x + b.x, a.y + b.y)
  }

  function Sq(a: real): real {
    a * a
  }

  /** Squared Euclidean distance between two points of the plane. */
  function DistSq2(a: Vec2, b: Vec2): real {
    Sq(a.x - b.x) + Sq(a.y - b.y)
  }

  /** Squared Euclidean distance between two points of space. */
  function DistSq3(a: Vec3, b: Vec3): real {
    Sq(a.x - b.x) + Sq(a.y - b.y) + Sq(a.z - b.z)
  }

  function Abs(a: real): real {
    if a < 0.0 then -a else a
  }

  function Min(a: real, b: real): real {
    if a <= b then a else b
  }

  function Max(a: real, b: real): real {
    if a >= b then a else b
  }

  /** The product of two positive reals is positive. */
  lemma MulPos(a: real, b: real)
    requires a > 0.0 && b > 0.0
    ensures a * b > 0.0
  {
  }

  /** The product of two non-negative reals is non-negative. */
  lemma MulNonNeg(a: real, b: real)
    requires a >= 0.0 && b >= 0.0
    ensures a * b >= 0.0
  {
  }

  /** Squaring is strictly increasing on the non-negative reals. */
  lemma SqStrict(a: real, b: real)
    requires 0.0 <= a < b
    ensures Sq(a) < Sq(b)
  {
    MulPos(b - a, b + a);
    assert (b - a) * (b + a) == b * b - a * a;
  }

  /** Squaring is monotone on the non-negative reals. */
  lemma SqMono(a: real, b: real)
    requires 0.0 <= a <= b
    ensures Sq(a) <= Sq(b)
  {
    MulNonNeg(b - a, b + a);
    assert (b - a) * (b + a) == b * b - a * a;
  }

  /** Squares are non-negative and do not see the sign. */
  lemma SqFacts(a: real)
    ensures Sq(Abs(a)) == Sq(a)
    ensures Sq(a) >= 0.0
    ensures a != 0.0 ==> Sq(a) > 0.0
  {
    assert Sq(-a) == Sq(a);
    SqMono(0.0, Abs(a));
    if a != 0.0 {
      SqStrict(0.0, Abs(a));
    }
  }
}
