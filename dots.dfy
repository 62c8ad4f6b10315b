/** A particle of the canvas "trail" demo (js/Dot.js). It moves by its
    velocity every frame and reverses a velocity component whenever the moved
    position lies outside the canvas on that axis; the position itself is
    never clamped. The canvas size `w`, `h` and the `Math.random()` draws of
    the constructor are passed in. */
module Dots {
  import opened Vectors

  /** On one axis, the dot is on the canvas, or one more step brings it back. */
  predicate InBand(p: real, v: real, limit: real) {
    (0.0 <= p <= limit) || (0.0 <= p + v <= limit)
  }

  /** The per-axis bounce rule: reverse iff the moved coordinate is outside
      the closed range [0, limit]. */
  function Bounce(p: real, v: real, limit: real): (r: real)
    ensures Abs(r) == Abs(v)
    ensures 0.0 <= p <= limit ==> r == v
    ensures r == -v <==> p < 0.0 || p > limit || v == 0.0
  {
    if p < 0.0 || p > limit then -v else v
  }

  /** The band is kept by a step: a dot that starts on the canvas, or one step
      away from it, is again on it or one step away from it, since a dot that
      leaves is turned around and comes back by the way it left. */
  lemma StepKeepsBand(p: real, v: real, limit: real)
    requires limit >= 0.0 && InBand(p, v, limit)
    ensures InBand(p + v, Bounce(p + v, v, limit), limit)
    ensures Abs(Bounce(p + v, v, limit)) == Abs(v)
  {
    if !(0.0 <= p + v <= limit) {
      assert 0.0 <= p <= limit;
      assert p + v + Bounce(p + v, v, limit) == p;
    }
  }

  class Dot {
    var x: real
    var y: real
    var radius: real
    var vx: real
    var vy: real
    var hue: real

    /** Never farther off the canvas than one step, on either axis. */
    predicate Valid(w: real, h: real)
      reads this
    {
      InBand(x, vx, w) && InBand(y, vy, h)
    }

    /** `new Dot()`, the six `Math.random()` draws in [0, 1) given in order. */
    constructor (w: real, h: real, r1: real, r2: real, r3: real, r4: real, r5: real, r6: real)
      requires w >= 0.0 && h >= 0.0
      requires 0.0 <= r1 < 1.0 && 0.0 <= r2 < 1.0 && 0.0 <= r3 < 1.0
      requires 0.0 <= r4 < 1.0 && 0.0 <= r5 < 1.0 && 0.0 <= r6 < 1.0
      ensures x == r1 * w && y == r2 * h && radius == r3 * 3.0 + 1.0
      ensures vx == r4 * 2.0 - 1.0 && vy == r5 * 2.0 - 1.0 && hue == r6 * 360.0
      ensures 0.0 <= x <= w && 0.0 <= y <= h && (w > 0.0 ==> x < w) && (h > 0.0 ==> y < h)
      ensures 1.0 <= radius < 4.0
      ensures -1.0 <= vx < 1.0 && -1.0 <= vy < 1.0
      ensures 0.0 <= hue < 360.0
      ensures Valid(w, h)
    {
      MulNonNeg(r1, w);
      MulNonNeg(r2, h);
      MulNonNeg(1.0 - r1, w);
      MulNonNeg(1.0 - r2, h);
      if w > 0.0 { MulPos(1.0 - r1, w); }
      if h > 0.0 { MulPos(1.0 - r2, h); }
      x := r1 * w;
      y := r2 * h;
      radius := r3 * 3.0 + 1.0;
      vx := r4 * 2.0 - 1.0;
      vy := r5 * 2.0 - 1.0;
      hue := r6 * 360.0;
    }

    method Update(w: real, h: real)
      modifies this`x, this`y, this`vx, this`vy
      ensures x == old(x) + old(vx) && y == old(y) + old(vy)
      ensures vx == Bounce(x, old(vx), w) && vy == Bounce(y, old(vy), h)
      ensures (vx == -old(vx) <==> (x < 0.0 || x > w) || old(vx) == 0.0)
      ensures (vy == -old(vy) <==> (y < 0.0 || y > h) || old(vy) == 0.0)
      ensures Abs(vx) == Abs(old(vx)) && Abs(vy) == Abs(old(vy))
      ensures 0.0 <= x <= w && 0.0 <= y <= h ==> vx == old(vx) && vy == old(vy)
      ensures w >= 0.0 && h >= 0.0 && old(Valid(w, h)) ==> Valid(w, h)
    {
      ghost var x0, y0, vx0, vy0 := x, y, vx, vy;
      x := x + vx;
      y := y + vy;

      if x < 0.0 || x > w {
        vx := vx * -1.0;
      }
      if y < 0.0 || y > h {
        vy := vy * -1.0;
      }
      if w >= 0.0 && h >= 0.0 && InBand(x0, vx0, w) && InBand(y0, vy0, h) {
        StepKeepsBand(x0, vx0, w);
        StepKeepsBand(y0, vy0, h);
      }
    }
  }
}
