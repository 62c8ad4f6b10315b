/** The bouncing ball of the p5 physics demo (js/Ball.js): gravity,
    integration, then the floor, left wall and right wall are checked in that
    order, each clamping the position and reflecting the velocity component
    scaled by the restitution. The canvas `width` and `height`, p5 globals,
    are passed in. */
module Balls {
  import opened Vectors

  /** `v *= -restitution`: the component reversed and scaled. */
  function Reflect(v: real, restitution: real): real {
    v * -restitution
  }

  /** Reflecting a velocity component with a restitution in [0, 1] never makes
      it faster. */
  lemma BounceNeverSpeedsUp(v: real, e: real)
    ensures 0.0 <= e <= 1.0 ==> Abs(Reflect(v, e)) <= Abs(v)
  {
    if !(0.0 <= e <= 1.0) {
    } else if v >= 0.0 {
      MulNonNeg(v, e);
      MulNonNeg(v, 1.0 - e);
      assert v * (1.0 - e) == v - v * e;
    } else {
      MulNonNeg(-v, e);
      MulNonNeg(-v, 1.0 - e);
      assert (-v) * (1.0 - e) == -v - (-v) * e;
    }
  }

  /** The floor check on the moved position: a ball reaching below the floor
      is put back on it with its vertical velocity reflected. Returns the new
      y and vertical velocity. */
  function FloorContact(y: real, vy: real, radius: real, height: real, restitution: real): (r: (real, real))
    ensures r.0 + radius <= height
    ensures y + radius <= height ==> r == (y, vy)
    ensures y + radius > height ==> r == (height - radius, Reflect(vy, restitution))
    ensures 0.0 <= restitution <= 1.0 ==> Abs(r.1) <= Abs(vy)
  {
    BounceNeverSpeedsUp(vy, restitution);
    if y + radius > height then (height - radius, Reflect(vy, restitution)) else (y, vy)
  }

  /** The left wall and then the right wall on the moved position. Returns the
      new x and horizontal velocity. */
  function Walls(x: real, vx: real, radius: real, width: real, restitution: real): (r: (real, real))
    ensures r.0 + radius <= width
    ensures width >= 2.0 * radius ==> r.0 >= radius
    ensures radius <= x && x + radius <= width ==> r == (x, vx)
    ensures x - radius < 0.0 && radius + radius <= width ==> r == (radius, Reflect(vx, restitution))
    ensures x + radius > width && x - radius >= 0.0 ==> r == (width - radius, Reflect(vx, restitution))
    ensures 0.0 <= restitution <= 1.0 ==> Abs(r.1) <= Abs(vx)
  {
    var leftHit := x - radius < 0.0;
    var x1 := if leftHit then radius else x;
    var vx1 := if leftHit then Reflect(vx, restitution) else vx;
    BounceNeverSpeedsUp(vx, restitution);
    BounceNeverSpeedsUp(vx1, restitution);
    if x1 + radius > width then (width - radius, Reflect(vx1, restitution)) else (x1, vx1)
  }

  class Ball {
    var position: Vec2
    var initialPosition: Vec2
    var velocity: Vec2
    var acceleration: Vec2
    var radius: real
    var restitution: real
    var gravity: real

    constructor (x: real, y: real, r: real)
      ensures position == Vec2(x, y) && initialPosition == Vec2(x, y)
      ensures velocity == Vec2(0.0, 0.0) && acceleration == Vec2(0.0, 0.0)
      ensures radius == r && restitution == 0.8 && gravity == 0.5
    {
      position := Vec2(x, y);
      initialPosition := Vec2(x, y);
      velocity := Vec2(0.0, 0.0);
      acceleration := Vec2(0.0, 0.0);
      radius := r;
      restitution := 0.8;
      gravity := 0.5;
    }

    method Update(width: real, height: real)
      modifies this`position, this`velocity, this`acceleration
      // gravity is the acceleration, added to the velocity before the move
      ensures acceleration == Vec2(0.0, gravity)
      ensures (position.y, velocity.y) ==
                FloorContact(old(position.y) + old(velocity.y) + gravity, old(velocity.y) + gravity,
                             radius, height, restitution)
      ensures (position.x, velocity.x) ==
                Walls(old(position.x) + old(velocity.x), old(velocity.x), radius, width, restitution)
      // the floor and the right wall are never overshot; the left wall is,
      // only when the canvas is narrower than the ball
      ensures position.y + radius <= height
      ensures position.x + radius <= width
      ensures width >= 2.0 * radius ==> position.x >= radius
      // the top edge is never checked: without a floor contact y moves freely
      ensures old(position.y) + old(velocity.y) + gravity + radius <= height ==>
                position.y == old(position.y) + old(velocity.y) + gravity
      ensures 0.0 <= restitution <= 1.0 ==>
                Abs(velocity.y) <= Abs(old(velocity.y) + gravity) &&
                Abs(velocity.x) <= Abs(old(velocity.x))
    {
      Integrate();
      CheckFloor(height);
      CheckWalls(width);
    }

    /** Gravity becomes the acceleration, which is added to the velocity,
        which is added to the position. */
    method Integrate()
      modifies this`position, this`velocity, this`acceleration
      ensures acceleration == Vec2(0.0, gravity)
      ensures velocity == Vec2(old(velocity.x), old(velocity.y) + gravity)
      ensures position == Vec2(old(position.x) + velocity.x, old(position.y) + velocity.y)
    {
      acceleration := Vec2(0.0, gravity);
      velocity := Add2(velocity, acceleration);
      position := Add2(position, velocity);
    }

    /** The floor check. */
    method CheckFloor(height: real)
      modifies this`position, this`velocity
      ensures (position.y, velocity.y) == FloorContact(old(position.y), old(velocity.y), radius, height, restitution)
      ensures position.x == old(position.x) && velocity.x == old(velocity.x)
    {
      if position.y + radius > height {
        position := position.(y := height - radius);
        velocity := velocity.(y := Reflect(velocity.y, restitution));
      }
    }

    /** The left-wall check followed by the right-wall check. */
    method CheckWalls(width: real)
      modifies this`position, this`velocity
      ensures (position.x, velocity.x) == Walls(old(position.x), old(velocity.x), radius, width, restitution)
      ensures position.y == old(position.y) && velocity.y == old(velocity.y)
    {
      if position.x - radius < 0.0 {
        position := position.(x := radius);
        velocity := velocity.(x := Reflect(velocity.x, restitution));
      }
      if position.x + radius > width {
        position := position.(x := width - radius);
        velocity := velocity.(x := Reflect(velocity.x, restitution));
      }
    }

    method Reset()
      modifies this`position, this`velocity, this`acceleration
      ensures position == initialPosition
      ensures velocity == Vec2(0.0, 0.0) && acceleration == Vec2(0.0, 0.0)
    {
      position := initialPosition;
      velocity := Vec2(0.0, 0.0);
      acceleration := Vec2(0.0, 0.0);
    }
  }
}
