/** The static boxes of the p5 game and the sphere-versus-box test the player
    runs against them (js/Obstacle.js). The game draws with the Y axis pointing
    down, so a box standing on the ground at `pos.y == 0` occupies negative y. */
module Obstacles {
  import opened Vectors

  /** An obstacle: a reference point and the box's width, height and depth. */
  datatype Obstacle = Obstacle(pos: Vec3, w: real, h: real, d: real)

  /** `new Obstacle(x, y, z)`. The two p5 `random(lo, hi)` draws are passed
      in as the underlying uniform draws `u`, `v` in [0, 1); p5 maps such a
      draw to `u * (hi - lo) + lo`. */
  function NewObstacle(x: real, y: real, z: real, u: real, v: real): (o: Obstacle)
    requires 0.0 <= u < 1.0 && 0.0 <= v < 1.0
    ensures o.pos == Vec3(x, y, z)
    ensures 50.0 <= o.w < 150.0 && 100.0 <= o.h < 300.0
    ensures o.d == o.w
  {
    var w := u * (150.0 - 50.0) + 50.0;
    var h := v * (300.0 - 100.0) + 100.0;
    Obstacle(Vec3(x, y, z), w, h, w)
  }

  /** Extents that describe a box rather than an inverted one. */
  predicate WellFormed(b: Obstacle) {
    b.w >= 0.0 && b.h >= 0.0 && b.d >= 0.0
  }

  /** The centre the box is drawn at: the reference point lifted by half the
      height (minus one unit) and mirrored for the downward Y axis. */
  function BoxCenter(b: Obstacle): Vec3 {
    Vec3(b.pos.x, -(b.pos.y + b.h / 2.0 - 1.0), b.pos.z)
  }

  function BoxMin(b: Obstacle): Vec3 {
    var c := BoxCenter(b);
    Vec3(c.x - b.w / 2.0, c.y - b.h / 2.0, c.z - b.d / 2.0)
  }

  function BoxMax(b: Obstacle): Vec3 {
    var c := BoxCenter(b);
    Vec3(c.x + b.w / 2.0, c.y + b.h / 2.0, c.z + b.d / 2.0)
  }

  /** The closed box, faces included. */
  predicate InBox(p: Vec3, b: Obstacle) {
    var lo, hi := BoxMin(b), BoxMax(b);
    lo.x <= p.x <= hi.x && lo.y <= p.y <= hi.y && lo.z <= p.z <= hi.z
  }

  /** The box's corners are its centre plus and minus the half-extents, so
      the box is exactly w by h by d around BoxCenter. */
  lemma BoxGeometry(b: Obstacle)
    requires WellFormed(b)
    ensures BoxMax(b).x - BoxMin(b).x == b.w
    ensures BoxMax(b).y - BoxMin(b).y == b.h
    ensures BoxMax(b).z - BoxMin(b).z == b.d
    ensures (BoxMin(b).y + BoxMax(b).y) / 2.0 == -(b.pos.y + b.h / 2.0 - 1.0)
    ensures BoxMin(b).y == -(b.pos.y + b.h - 1.0) && BoxMax(b).y == -(b.pos.y - 1.0)
    ensures InBox(BoxCenter(b), b)
  {
  }

  /** p5's `constrain(n, low, high)`, which is `max(min(n, high), low)`. */
  function Constrain(n: real, low: real, high: real): (r: real)
    ensures low <= high ==> low <= r <= high
    ensures low <= n <= high ==> r == n
  {
    Max(Min(n, high), low)
  }

  /** The centre clamped into the box on each axis. */
  function ClosestPoint(c: Vec3, b: Obstacle): (q: Vec3)
    ensures WellFormed(b) ==> InBox(q, b)
    ensures InBox(c, b) ==> q == c
  {
    var lo, hi := BoxMin(b), BoxMax(b);
    Vec3(Constrain(c.x, lo.x, hi.x), Constrain(c.y, lo.y, hi.y), Constrain(c.z, lo.z, hi.z))
  }

  /** `sphereBoxCollision(center, radius, box)`: the squared distance from the
      centre to its clamp into the box is strictly below radius squared. */
  function SphereBoxCollision(c: Vec3, radius: real, b: Obstacle): bool {
    DistSq3(ClosestPoint(c, b), c) < radius * radius
  }

  /** On one axis, the clamp is at least as close to n as any point of [lo, hi]. */
  lemma ClampIsNearest(n: real, lo: real, hi: real, p: real)
    requires lo <= p <= hi
    ensures Sq(Constrain(n, lo, hi) - n) <= Sq(p - n)
  {
    var q := Constrain(n, lo, hi);
    if n < lo {
      assert q == lo;
      assert Sq(p - n) - Sq(q - n) == (p - q) * (p + q - 2.0 * n);
    } else if n > hi {
      assert q == hi;
      assert Sq(p - n) - Sq(q - n) == (q - p) * (2.0 * n - p - q);
    } else {
      assert q == n;
    }
  }

  /** The clamped point is the point of the box nearest to the centre. */
  lemma ClosestPointIsNearest(c: Vec3, b: Obstacle, p: Vec3)
    requires InBox(p, b)
    ensures DistSq3(ClosestPoint(c, b), c) <= DistSq3(p, c)
  {
    var lo, hi := BoxMin(b), BoxMax(b);
    ClampIsNearest(c.x, lo.x, hi.x, p.x);
    ClampIsNearest(c.y, lo.y, hi.y, p.y);
    ClampIsNearest(c.z, lo.z, hi.z, p.z);
  }

  /** The test is the geometric one: the sphere collides with the box exactly
      when some point of the closed box lies strictly inside the sphere. */
  lemma CollisionIffBoxPointInsideSphere(c: Vec3, radius: real, b: Obstacle)
    requires WellFormed(b)
    ensures SphereBoxCollision(c, radius, b) <==>
            exists p :: InBox(p, b) && DistSq3(p, c) < radius * radius
  {
    if SphereBoxCollision(c, radius, b) {
      assert InBox(ClosestPoint(c, b), b);
    }
    forall p | InBox(p, b) && DistSq3(p, c) < radius * radius
      ensures SphereBoxCollision(c, radius, b)
    {
      ClosestPointIsNearest(c, b, p);
    }
  }

  /** A centre inside the closed box collides for every non-zero radius, and
      for radius 0 it does not. */
  lemma InsideBoxCollidesIffNonZeroRadius(c: Vec3, radius: real, b: Obstacle)
    requires InBox(c, b)
    ensures SphereBoxCollision(c, radius, b) <==> radius != 0.0
  {
    assert ClosestPoint(c, b) == c;
    assert DistSq3(c, c) == 0.0;
    SqFacts(radius);
  }

  /** A sphere resting exactly on the top face (the face of least y), with its
      centre over the box, touches the box and does not collide with it. */
  lemma TouchingTopFaceIsNoCollision(c: Vec3, radius: real, b: Obstacle)
    requires WellFormed(b) && radius >= 0.0
    requires BoxMin(b).x <= c.x <= BoxMax(b).x && BoxMin(b).z <= c.z <= BoxMax(b).z
    requires c.y == BoxMin(b).y - radius
    ensures !SphereBoxCollision(c, radius, b)
  {
    var q := ClosestPoint(c, b);
    assert q == Vec3(c.x, BoxMin(b).y, c.z);
  }

  /** Growing the radius never removes a collision. */
  lemma CollisionMonotoneInRadius(c: Vec3, r: real, r': real, b: Obstacle)
    requires 0.0 <= r <= r'
    requires SphereBoxCollision(c, r, b)
    ensures SphereBoxCollision(c, r', b)
  {
    SqMono(r, r');
  }

  /** A centre farther than the radius outside the box along a single axis
      never collides, whatever the other two coordinates are. */
  lemma SeparatedOnOneAxisIsNoCollision(c: Vec3, radius: real, b: Obstacle)
    requires WellFormed(b) && radius >= 0.0
    requires || c.x > BoxMax(b).x + radius || c.x < BoxMin(b).x - radius
             || c.y > BoxMax(b).y + radius || c.y < BoxMin(b).y - radius
             || c.z > BoxMax(b).z + radius || c.z < BoxMin(b).z - radius
    ensures !SphereBoxCollision(c, radius, b)
  {
    var q := ClosestPoint(c, b);
    var g := if c.x > BoxMax(b).x + radius || c.x < BoxMin(b).x - radius then Abs(q.x - c.x)
             else if c.y > BoxMax(b).y + radius || c.y < BoxMin(b).y - radius then Abs(q.y - c.y)
             else Abs(q.z - c.z);
    assert g > radius;
    SqStrict(radius, g);
    SqFacts(q.x - c.x);
    SqFacts(q.y - c.y);
    SqFacts(q.z - c.z);
  }
}
