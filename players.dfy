/** The player of the p5 game (js/Player.js): one update per frame applies
    input, ground snapping and jumping, gravity, then moves along X, Z and Y,
    each axis separately checked against the obstacle list, and finally damps
    the velocity. The obstacle list, the player size, the camera heading and
    the keyboard, all globals in the game, are passed in explicitly. */
module Players {
  import opened Vectors
  import opened Obstacles

  /** The part of the player that an update changes. */
  datatype Body = Body(pos: Vec3, vel: Vec3, grounded: bool)

  /** One frame's input. `dirX`, `dirZ` are the sine and cosine of the camera
      heading (the direction vector's Y component is always 0); the four flags
      are `keyIsDown` for the up arrow, the down arrow, Space (32) and X (88). */
  datatype Input = Input(dirX: real, dirZ: real, upArrow: bool, downArrow: bool, space: bool, xKey: bool)

  const Gravity: real := 0.5
  const GroundThreshold: real := -1.0
  const Damping: real := 0.9

  // ---------------------------------------------------------------------------
  // Scanning the obstacle list

  /** Index of the first obstacle, in list order, that the sphere collides
      with; `|obstacles|` when there is none. */
  function FirstHit(obstacles: seq<Obstacle>, c: Vec3, r: real): (k: nat)
    ensures k <= |obstacles|
    ensures forall i :: 0 <= i < k ==> !SphereBoxCollision(c, r, obstacles[i])
    ensures k < |obstacles| ==> SphereBoxCollision(c, r, obstacles[k])
    decreases |obstacles|
  {
    if |obstacles| == 0 then 0
    else if SphereBoxCollision(c, r, obstacles[0]) then 0
    else 1 + FirstHit(obstacles[1..], c, r)
  }

  /** Whether the sphere collides with some obstacle of the list. */
  predicate Blocked(obstacles: seq<Obstacle>, c: Vec3, r: real)
  {
    FirstHit(obstacles, c, r) < |obstacles|
  }

  lemma BlockedIffSomeCollision(obstacles: seq<Obstacle>, c: Vec3, r: real)
    ensures Blocked(obstacles, c, r) <==>
            exists i :: 0 <= i < |obstacles| && SphereBoxCollision(c, r, obstacles[i])
  {
    if Blocked(obstacles, c, r) {
      var k := FirstHit(obstacles, c, r);
      assert SphereBoxCollision(c, r, obstacles[k]);
    }
  }

  /** The `for (let obs of obstacles) { if (sphereBoxCollision(...)) { ...; break; } }`
      loop: reports whether some obstacle collides and which one is met first. */
  method FindCollision(obstacles: seq<Obstacle>, c: Vec3, r: real) returns (collision: bool, k: nat)
    ensures k <= |obstacles| && (collision <==> k < |obstacles|)
    ensures forall i :: 0 <= i < k ==> !SphereBoxCollision(c, r, obstacles[i])
    ensures collision ==> SphereBoxCollision(c, r, obstacles[k])
    ensures k == FirstHit(obstacles, c, r)
  {
    collision := false;
    k := 0;
    while k < |obstacles|
      invariant 0 <= k <= |obstacles|
      invariant forall i :: 0 <= i < k ==> !SphereBoxCollision(c, r, obstacles[i])
    {
      if SphereBoxCollision(c, r, obstacles[k]) {
        collision := true;
        break;
      }
      k := k + 1;
    }
  }

  // ---------------------------------------------------------------------------
  // The steps of one update, as functions of the body

  /** `handleMovement`: the up arrow adds speed times the heading, the down
      arrow subtracts it. */
  function Movement(b: Body, input: Input, speed: real): (r: Body)
    ensures r.pos == b.pos && r.grounded == b.grounded
    ensures r.vel.y == b.vel.y
    ensures var n := (if input.upArrow then 1.0 else 0.0) - (if input.downArrow then 1.0 else 0.0);
            r.vel.x == b.vel.x + n * speed * input.dirX && r.vel.z == b.vel.z + n * speed * input.dirZ
    ensures input.upArrow == input.downArrow ==> r.vel == b.vel
  {
    var direction := Vec3(input.dirX, 0.0, input.dirZ);
    var v1 := if input.upArrow then Add3(b.vel, Scale3(direction, speed)) else b.vel;
    var v2 := if input.downArrow then Add3(v1, Scale3(direction, -speed)) else v1;
    b.(vel := v2)
  }

  /** `handleGroundAndJump`: at or below the threshold height the player is
      snapped to the ground, stopped vertically and grounded, unless Space
      launches it; above it the player is airborne and X forces a descent. */
  function GroundAndJump(b: Body, input: Input, jumpSpeed: real): (r: Body)
    ensures r.vel.x == b.vel.x && r.vel.z == b.vel.z
    ensures r.pos.x == b.pos.x && r.pos.z == b.pos.z
    ensures b.pos.y >= GroundThreshold ==>
              r.pos.y == 0.0 && r.grounded == !input.space &&
              r.vel.y == (if input.space then -jumpSpeed else 0.0)
    ensures b.pos.y < GroundThreshold ==>
              r.pos == b.pos && !r.grounded &&
              r.vel.y == (if input.xKey then jumpSpeed else b.vel.y)
    ensures r.grounded ==> r.pos.y == 0.0 && r.vel.y == 0.0
  {
    if b.pos.y >= GroundThreshold then
      var landed := Body(b.pos.(y := 0.0), b.vel.(y := 0.0), true);
      if input.space then landed.(vel := landed.vel.(y := -jumpSpeed), grounded := false) else landed
    else
      var airborne := b.(grounded := false);
      if input.xKey then airborne.(vel := airborne.vel.(y := jumpSpeed)) else airborne
  }

  /** `applyGravity`. */
  function WithGravity(b: Body): Body {
    b.(vel := b.vel.(y := b.vel.y + Gravity))
  }

  /** The X half of `resolveHorizontalCollision`. */
  function MoveX(b: Body, obstacles: seq<Obstacle>, size: real): (r: Body)
    ensures r.pos.y == b.pos.y && r.pos.z == b.pos.z && r.grounded == b.grounded
    ensures r.vel.y == b.vel.y && r.vel.z == b.vel.z
    ensures Blocked(obstacles, Vec3(b.pos.x + b.vel.x, b.pos.y, b.pos.z), size / 2.0) ==>
              r.pos.x == b.pos.x && r.vel.x == 0.0
    ensures !Blocked(obstacles, Vec3(b.pos.x + b.vel.x, b.pos.y, b.pos.z), size / 2.0) ==>
              r.pos.x == b.pos.x + b.vel.x && r.vel.x == b.vel.x &&
              forall i :: 0 <= i < |obstacles| ==> !SphereBoxCollision(r.pos, size / 2.0, obstacles[i])
  {
    var newX := b.pos.x + b.vel.x;
    if Blocked(obstacles, Vec3(newX, b.pos.y, b.pos.z), size / 2.0) then b.(vel := b.vel.(x := 0.0))
    else b.(pos := b.pos.(x := newX))
  }

  /** The Z half of `resolveHorizontalCollision`, checked at the current x. */
  function MoveZ(b: Body, obstacles: seq<Obstacle>, size: real): (r: Body)
    ensures r.pos.x == b.pos.x && r.pos.y == b.pos.y && r.grounded == b.grounded
    ensures r.vel.x == b.vel.x && r.vel.y == b.vel.y
    ensures Blocked(obstacles, Vec3(b.pos.x, b.pos.y, b.pos.z + b.vel.z), size / 2.0) ==>
              r.pos.z == b.pos.z && r.vel.z == 0.0
    ensures !Blocked(obstacles, Vec3(b.pos.x, b.pos.y, b.pos.z + b.vel.z), size / 2.0) ==>
              r.pos.z == b.pos.z + b.vel.z && r.vel.z == b.vel.z &&
              forall i :: 0 <= i < |obstacles| ==> !SphereBoxCollision(r.pos, size / 2.0, obstacles[i])
  {
    var newZ := b.pos.z + b.vel.z;
    if Blocked(obstacles, Vec3(b.pos.x, b.pos.y, newZ), size / 2.0) then b.(vel := b.vel.(z := 0.0))
    else b.(pos := b.pos.(z := newZ))
  }

  /** `resolveHorizontalCollision`: X first, then Z from the updated x. */
  function Horizontal(b: Body, obstacles: seq<Obstacle>, size: real): (r: Body)
    ensures r.pos.y == b.pos.y && r.vel.y == b.vel.y && r.grounded == b.grounded
    ensures obstacles == [] ==>
              r.pos == Vec3(b.pos.x + b.vel.x, b.pos.y, b.pos.z + b.vel.z) && r.vel == b.vel
  {
    MoveZ(MoveX(b, obstacles, size), obstacles, size)
  }

  /** The Y coordinate a falling player is snapped to on hitting `o`: half a
      player below the height the source calls the box top. */
  function LandingY(o: Obstacle, size: real): real {
    -(o.pos.y + o.h / 2.0 - 1.0) - size / 2.0
  }

  /** The Y coordinate a rising player is snapped to on hitting `o`. */
  function CeilingY(o: Obstacle, size: real): real {
    -(o.pos.y - o.h / 2.0 - 1.0) + size / 2.0
  }

  /** `resolveVerticalCollision`: move by the vertical velocity unless the
      moved sphere hits an obstacle; on a hit, the first obstacle in list
      order decides where a falling or rising player is put, and the
      vertical velocity is zeroed. */
  function Vertical(b: Body, obstacles: seq<Obstacle>, size: real): (r: Body)
    ensures r.pos.x == b.pos.x && r.pos.z == b.pos.z
    ensures r.vel.x == b.vel.x && r.vel.z == b.vel.z
    ensures var test := Vec3(b.pos.x, b.pos.y + b.vel.y, b.pos.z);
            var k := FirstHit(obstacles, test, size / 2.0);
            if k == |obstacles| then
              r.pos.y == b.pos.y + b.vel.y && r.vel.y == b.vel.y && r.grounded == b.grounded
            else
              r.vel.y == 0.0 &&
              (b.vel.y > 0.0 ==> r.pos.y == LandingY(obstacles[k], size) && r.grounded) &&
              (b.vel.y < 0.0 ==> r.pos.y == CeilingY(obstacles[k], size) && !r.grounded) &&
              (b.vel.y == 0.0 ==> r.pos == b.pos && r.grounded == b.grounded)
  {
    var newY := b.pos.y + b.vel.y;
    var k := FirstHit(obstacles, Vec3(b.pos.x, newY, b.pos.z), size / 2.0);
    if k == |obstacles| then
      b.(pos := b.pos.(y := newY))
    else
      var o := obstacles[k];
      var stopped := b.(vel := b.vel.(y := 0.0));
      if b.vel.y > 0.0 then stopped.(pos := b.pos.(y := LandingY(o, size)), grounded := true)
      else if b.vel.y < 0.0 then stopped.(pos := b.pos.(y := CeilingY(o, size)), grounded := false)
      else stopped
  }

  /** `update`: the five steps in their fixed order, then the velocity is
      multiplied by 0.9 on every axis. */
  function Tick(b: Body, obstacles: seq<Obstacle>, input: Input, size: real, speed: real, jumpSpeed: real): Body {
    var moved := Movement(b, input, speed);
    var snapped := GroundAndJump(moved, input, jumpSpeed);
    var pulled := WithGravity(snapped);
    var slid := Horizontal(pulled, obstacles, size);
    var settled := Vertical(slid, obstacles, size);
    settled.(vel := Scale3(settled.vel, Damping))
  }

  // ---------------------------------------------------------------------------
  // Properties of the update

  /** A player grounded after an update has either just landed on an
      obstacle, sitting at that obstacle's landing height with no vertical
      velocity, or stands on the ground plane pulled half a unit below it,
      with a damped downward velocity of 0.45. */
  lemma GroundedAfterTick(b: Body, obstacles: seq<Obstacle>, input: Input, size: real, speed: real, jumpSpeed: real)
    ensures var r := Tick(b, obstacles, input, size, speed, jumpSpeed);
            r.grounded ==>
              (r.vel.y == 0.0 && exists k :: 0 <= k < |obstacles| && r.pos.y == LandingY(obstacles[k], size)) ||
              (r.pos.y == 0.5 && r.vel.y == 0.45)
  {
    var snapped := GroundAndJump(Movement(b, input, speed), input, jumpSpeed);
    var slid := Horizontal(WithGravity(snapped), obstacles, size);
    var settled := Vertical(slid, obstacles, size);
    var r := settled.(vel := Scale3(settled.vel, Damping));
    assert Tick(b, obstacles, input, size, speed, jumpSpeed) == r;
    var k := FirstHit(obstacles, Vec3(slid.pos.x, slid.pos.y + slid.vel.y, slid.pos.z), size / 2.0);
    if k < |obstacles| && slid.vel.y > 0.0 {
      // landed on the first obstacle hit
      assert r.pos.y == LandingY(obstacles[k], size) && settled.vel.y == 0.0;
    } else if slid.grounded {
      // still on the ground plane: snapped to 0, then pulled by gravity
      assert slid.pos.y == 0.0 && slid.vel.y == 0.5;
      assert settled.pos.y == 0.5 && settled.vel.y == 0.5;
    }
  }

  /** With no obstacles a player standing still on the ground, with no key
      held, is a fixed point of the update: it is put back on the ground,
      gravity pulls it half a unit below, it is reported grounded and keeps a
      damped downward velocity of 0.45. Being grounded therefore does not
      mean resting with zero vertical velocity. */
  lemma RestingOnGroundIsFixedPoint(x: real, z: real, size: real, speed: real, jumpSpeed: real)
    ensures var rest := Body(Vec3(x, 0.5, z), Vec3(0.0, 0.45, 0.0), true);
            var idle := Input(0.0, 0.0, false, false, false, false);
            Tick(rest, [], idle, size, speed, jumpSpeed) == rest
  {
    var rest := Body(Vec3(x, 0.5, z), Vec3(0.0, 0.45, 0.0), true);
    var idle := Input(0.0, 0.0, false, false, false, false);
    var snapped := GroundAndJump(Movement(rest, idle, speed), idle, jumpSpeed);
    assert snapped == Body(Vec3(x, 0.0, z), Vec3(0.0, 0.0, 0.0), true);
    var pulled := WithGravity(snapped);
    var slid := Horizontal(pulled, [], size);
    assert slid == pulled;
    var settled := Vertical(slid, [], size);
    assert settled == Body(Vec3(x, 0.5, z), Vec3(0.0, 0.5, 0.0), true);
  }

  /** Moving a colliding sphere vertically to a height inside the box's
      vertical extent keeps it colliding: only its Y gap to the box shrinks. */
  lemma RaisedIntoBoxStillCollides(test: Vec3, y: real, radius: real, o: Obstacle)
    requires SphereBoxCollision(test, radius, o)
    requires BoxMin(o).y <= y <= BoxMax(o).y
    ensures SphereBoxCollision(test.(y := y), radius, o)
  {
    var q, q' := ClosestPoint(test, o), ClosestPoint(test.(y := y), o);
    assert q'.y == y && q'.x == q.x && q'.z == q.z;
    SqFacts(q.y - test.y);
  }

  /** Landing snaps the player's centre half a player above the obstacle's
      centre height, not above its top face: when the player is no taller than
      the box, the landed sphere still collides with the obstacle it landed on. */
  lemma LandingKeepsPlayerInsideObstacle(b: Body, obstacles: seq<Obstacle>, size: real)
    requires b.vel.y > 0.0 && size > 0.0
    requires Blocked(obstacles, Vec3(b.pos.x, b.pos.y + b.vel.y, b.pos.z), size / 2.0)
    requires var o := obstacles[FirstHit(obstacles, Vec3(b.pos.x, b.pos.y + b.vel.y, b.pos.z), size / 2.0)];
             WellFormed(o) && size <= o.h
    ensures var r := Vertical(b, obstacles, size);
            var o := obstacles[FirstHit(obstacles, Vec3(b.pos.x, b.pos.y + b.vel.y, b.pos.z), size / 2.0)];
            r.grounded && r.vel.y == 0.0 &&
            r.pos.y + size / 2.0 == BoxCenter(o).y &&
            SphereBoxCollision(r.pos, size / 2.0, o)
  {
    var test := Vec3(b.pos.x, b.pos.y + b.vel.y, b.pos.z);
    var o := obstacles[FirstHit(obstacles, test, size / 2.0)];
    var r := Vertical(b, obstacles, size);
    assert r.pos == test.(y := LandingY(o, size));
    RaisedIntoBoxStillCollides(test, LandingY(o, size), size / 2.0, o);
  }

  // ---------------------------------------------------------------------------
  // The player object

  class Player {
    var pos: Vec3
    var velocity: Vec3
    var grounded: bool
    const size: real
    const speed: real
    const jumpSpeed: real

    /** The fields an update changes, as one value. */
    function State(): Body
      reads this
    {
      Body(pos, velocity, grounded)
    }

    /** `new Player()`, with the game's global `playerSize` passed in. */
    constructor (playerSize: real)
      ensures pos == Vec3(-800.0, -playerSize, 0.0)
      ensures velocity == Vec3(0.0, 0.0, 0.0) && !grounded
      ensures size == playerSize && speed == 1.0 && jumpSpeed == 10.0
    {
      pos := Vec3(-800.0, -playerSize, 0.0);
      size := playerSize;
      velocity := Vec3(0.0, 0.0, 0.0);
      grounded := false;
      speed := 1.0;
      jumpSpeed := 10.0;
    }

    method Update(obstacles: seq<Obstacle>, input: Input)
      modifies this
      ensures State() == Tick(old(State()), obstacles, input, size, speed, jumpSpeed)
    {
      HandleMovement(input);
      HandleGroundAndJump(input);
      ApplyGravity();
      ResolveHorizontalCollision(obstacles);
      ResolveVerticalCollision(obstacles);
      ghost var settled := State();
      velocity := Scale3(velocity, Damping);
      assert State() == settled.(vel := Scale3(settled.vel, Damping));
    }

    method HandleMovement(input: Input)
      modifies this
      ensures State() == Movement(old(State()), input, speed)
    {
      var direction := Vec3(input.dirX, 0.0, input.dirZ);
      if input.upArrow {
        velocity := Add3(velocity, Scale3(direction, speed));
      }
      if input.downArrow {
        velocity := Add3(velocity, Scale3(direction, -speed));
      }
    }

    method HandleGroundAndJump(input: Input)
      modifies this
      ensures State() == GroundAndJump(old(State()), input, jumpSpeed)
    {
      if pos.y >= GroundThreshold {
        pos := pos.(y := 0.0);
        velocity := velocity.(y := 0.0);
        grounded := true;
        if input.space {
          velocity := velocity.(y := -jumpSpeed);
          grounded := false;
        }
      } else {
        grounded := false;
        if input.xKey {
          velocity := velocity.(y := jumpSpeed);
        }
      }
    }

    method ApplyGravity()
      modifies this
      ensures velocity == old(velocity).(y := old(velocity.y) + 0.5)
      ensures pos == old(pos) && grounded == old(grounded)
      ensures State() == WithGravity(old(State()))
    {
      velocity := velocity.(y := velocity.y + Gravity);
    }

    method ResolveVerticalCollision(obstacles: seq<Obstacle>)
      modifies this
      ensures State() == Vertical(old(State()), obstacles, size)
    {
      var newY := pos.y + velocity.y;
      var verticalTestPos := Vec3(pos.x, newY, pos.z);
      var verticalCollision, k := FindCollision(obstacles, verticalTestPos, size / 2.0);
      if !verticalCollision {
        pos := pos.(y := newY);
      } else {
        var collided := obstacles[k];
        if velocity.y > 0.0 {
          pos := pos.(y := LandingY(collided, size));
          grounded := true;
        } else if velocity.y < 0.0 {
          pos := pos.(y := CeilingY(collided, size));
          grounded := false;
        }
        velocity := velocity.(y := 0.0);
      }
    }

    method ResolveHorizontalCollision(obstacles: seq<Obstacle>)
      modifies this
      ensures State() == Horizontal(old(State()), obstacles, size)
    {
      ResolveX(obstacles);
      ResolveZ(obstacles);
    }

    /** The X half of `resolveHorizontalCollision`. */
    method ResolveX(obstacles: seq<Obstacle>)
      modifies this
      ensures State() == MoveX(old(State()), obstacles, size)
    {
      var newX := pos.x + velocity.x;
      var collisionX, _ := FindCollision(obstacles, Vec3(newX, pos.y, pos.z), size / 2.0);
      if !collisionX {
        pos := pos.(x := newX);
      } else {
        velocity := velocity.(x := 0.0);
      }
    }

    /** The Z half of `resolveHorizontalCollision`, checked at the current x. */
    method ResolveZ(obstacles: seq<Obstacle>)
      modifies this
      ensures State() == MoveZ(old(State()), obstacles, size)
    {
      var newZ := pos.z + velocity.z;
      var collisionZ, _ := FindCollision(obstacles, Vec3(pos.x, pos.y, newZ), size / 2.0);
      if !collisionZ {
        pos := pos.(z := newZ);
      } else {
        velocity := velocity.(z := 0.0);
      }
    }
  }
}
