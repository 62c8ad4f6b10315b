/** The car of the Three.js race demo (js/car.js): steering, the speed state
    machine (driving or crashed) and the reset. The mesh, its texture and the
    trigonometry are left out: the caller passes the cosine and sine of the
    heading and the `Math.random()` draw for the speed jitter. */
module Cars {
  import opened Vectors

  const StartX: real := 100.0
  const StartY: real := 200.0
  const StartZ: real := 2.0
  const DrivingFriction: real := 0.02
  const CrashedFriction: real := 0.1
  const ForwardAcceleration: real := 0.01
  const ForwardMaxSpeed: real := 1.8
  const BackwardAcceleration: real := 0.04
  const BackwardMaxSpeed: real := 0.5
  const RotationSpeed: real := 0.03
  /** Speed below which a crashed car counts as stopped, and the speed it restarts with. */
  const StopThreshold: real := 0.01
  const RestartSpeed: real := 0.1

  /** Friction: the speed moves `f` towards zero and stops at zero. */
  function Friction(s: real, f: real): (r: real)
    requires f >= 0.0
    ensures s >= 0.0 ==> 0.0 <= r <= s
    ensures s <= 0.0 ==> s <= r <= 0.0
    ensures Abs(r) == Max(0.0, Abs(s) - f)
  {
    if s > 0.0 then Max(0.0, s - f)
    else if s < 0.0 then Min(0.0, s + f)
    else s
  }

  /** Driving, not crashed: forward alone accelerates, backward alone brakes
      (and reverses), neither or both let friction act. */
  function Accelerate(s: real, forward: bool, backward: bool): (r: real)
    ensures forward && !backward ==> r == s + ForwardAcceleration
    ensures backward && !forward ==> r == s - BackwardAcceleration
    ensures forward == backward ==> r == Friction(s, DrivingFriction)
  {
    if forward && !backward then s + ForwardAcceleration
    else if backward && !forward then s - BackwardAcceleration
    else Friction(s, DrivingFriction)
  }

  /** The two speed limits, upper first. */
  function ClampSpeed(s: real): (r: real)
    ensures -BackwardMaxSpeed <= r <= ForwardMaxSpeed
    ensures -BackwardMaxSpeed <= s <= ForwardMaxSpeed ==> r == s
    ensures s > ForwardMaxSpeed ==> r == ForwardMaxSpeed
    ensures s < -BackwardMaxSpeed ==> r == -BackwardMaxSpeed
  {
    Max(Min(s, ForwardMaxSpeed), -BackwardMaxSpeed)
  }

  /** `Math.random() * 0.01 - 0.005`. */
  function Jitter(u: real): (r: real)
    requires 0.0 <= u < 1.0
    ensures -0.005 <= r < 0.005
  {
    u * 0.01 - 0.005
  }

  /** The new speed of a car that is not crashed. */
  function DrivingSpeed(s: real, forward: bool, backward: bool, u: real): (r: real)
    requires 0.0 <= u < 1.0
    ensures -BackwardMaxSpeed - 0.005 <= r < ForwardMaxSpeed + 0.005
  {
    ClampSpeed(Accelerate(s, forward, backward)) + Jitter(u)
  }

  /** The new speed and crashed flag of a crashed car: input is ignored,
      friction 0.1 acts, and a car slowed below 0.01 restarts at 0.1 and is no
      longer crashed. */
  function CrashedStep(s: real): (r: (real, bool))
    ensures !r.1 <==> Abs(Friction(s, CrashedFriction)) < StopThreshold
    ensures !r.1 ==> r.0 == RestartSpeed
    ensures r.1 ==> r.0 == Friction(s, CrashedFriction) && Abs(r.0) >= StopThreshold
  {
    var slowed := Friction(s, CrashedFriction);
    if Abs(slowed) < StopThreshold then (RestartSpeed, false) else (slowed, true)
  }

  /** Speed and crashed flag after one `update`. */
  function NextSpeed(s: real, crashed: bool, forward: bool, backward: bool, u: real): (r: (real, bool))
    requires 0.0 <= u < 1.0
    ensures !crashed ==> !r.1 && -0.505 <= r.0 < 1.805
    ensures crashed && r.1 ==> Abs(r.0) < Abs(s)
    ensures crashed && !r.1 ==> r.0 == RestartSpeed
  {
    if crashed then CrashedStep(s) else (DrivingSpeed(s, forward, backward, u), false)
  }

  /** The speed and flag after at most `n` updates of a crashed car, stopping
      at the first that ends the crash. */
  function CrashedRun(s: real, n: nat): (real, bool)
    decreases n
  {
    if n == 0 then (s, true)
    else
      var r := CrashedStep(s);
      if !r.1 then r else CrashedRun(r.0, n - 1)
  }

  /** A crash always ends: a crashed car with |speed| at most n times 0.1
      recovers within n updates, whatever is pressed meanwhile. */
  lemma {:induction false} CrashEndsWithin(s: real, n: nat)
    requires n >= 1 && Abs(s) <= n as real * CrashedFriction
    ensures !CrashedRun(s, n).1 && CrashedRun(s, n).0 == RestartSpeed
    decreases n
  {
    var r := CrashedStep(s);
    if r.1 {
      assert Abs(r.0) == Abs(s) - CrashedFriction;
      CrashEndsWithin(r.0, n - 1);
    }
  }

  /** The move at the end of `update`: back along the heading (cos, sin) by
      the new speed, in the plane of the track. For a genuine heading, one
      with cos^2 + sin^2 = 1, the car moves by exactly |s|. */
  function Advance(p: Vec3, cosAngle: real, sinAngle: real, s: real): (r: Vec3)
    ensures r.z == p.z
    ensures Sq(cosAngle) + Sq(sinAngle) == 1.0 ==> DistSq3(r, p) == Sq(s)
  {
    var r := Vec3(p.x - cosAngle * s, p.y - sinAngle * s, p.z);
    assert DistSq3(r, p) == Sq(cosAngle * s) + Sq(sinAngle * s);
    assert Sq(cosAngle * s) + Sq(sinAngle * s) == (Sq(cosAngle) + Sq(sinAngle)) * Sq(s);
    r
  }

  class Car {
    const startRotation: real
    var position: Vec3
    var rotation: real
    var speed: real
    var forward: bool
    var backward: bool
    var left: bool
    var right: bool
    var crashed: bool

    /** `new Car(textureLoader)` without the mesh; `startRotation` is the
        source's 90 * PI / 180, given by the caller. */
    constructor (startRotation: real)
      ensures this.startRotation == startRotation
      ensures position == Vec3(StartX, StartY, StartZ) && rotation == startRotation
      ensures speed == 0.0 && !forward && !backward && !left && !right && !crashed
    {
      this.startRotation := startRotation;
      position := Vec3(StartX, StartY, StartZ);
      rotation := startRotation;
      speed := 0.0;
      forward, backward, left, right := false, false, false, false;
      crashed := false;
    }

    /** One frame. `cosAngle` and `sinAngle` are the cosine and sine of the
        heading `rotation - PI / 2` taken before steering; `u` is the
        `Math.random()` draw. */
    method Update(cosAngle: real, sinAngle: real, u: real)
      requires 0.0 <= u < 1.0
      modifies this`position, this`rotation, this`speed, this`crashed
      ensures rotation == old(rotation) + (if left then RotationSpeed else 0.0)
                                        - (if right then RotationSpeed else 0.0)
      ensures (speed, crashed) == NextSpeed(old(speed), old(crashed), forward, backward, u)
      ensures position == Advance(old(position), cosAngle, sinAngle, speed)
    {
      Steer();
      ChangeSpeed(u);
      position := Advance(position, cosAngle, sinAngle, speed);
    }

    /** The steering part of `update`: left and right together cancel. */
    method Steer()
      modifies this`rotation
      ensures rotation == old(rotation) + (if left then RotationSpeed else 0.0)
                                        - (if right then RotationSpeed else 0.0)
      ensures left == right ==> rotation == old(rotation)
    {
      if left { rotation := rotation + RotationSpeed; }
      if right { rotation := rotation - RotationSpeed; }
    }

    /** The speed part of `update`: friction only while crashed, otherwise
        the pedals, the speed limits and the jitter. */
    method ChangeSpeed(u: real)
      requires 0.0 <= u < 1.0
      modifies this`speed, this`crashed
      ensures (speed, crashed) == NextSpeed(old(speed), old(crashed), forward, backward, u)
    {
      var friction := if crashed then CrashedFriction else DrivingFriction;

      if crashed {
        if speed > 0.0 {
          speed := Max(0.0, speed - friction);
        } else if speed < 0.0 {
          speed := Min(0.0, speed + friction);
        }
        if Abs(speed) < StopThreshold {
          speed := RestartSpeed;
          crashed := false;
        }
      } else {
        if forward && !backward {
          speed := speed + ForwardAcceleration;
        } else if backward && !forward {
          speed := speed - BackwardAcceleration;
        } else {
          if speed > 0.0 {
            speed := Max(0.0, speed - friction);
          } else if speed < 0.0 {
            speed := Min(0.0, speed + friction);
          }
        }
        speed := Min(speed, ForwardMaxSpeed);
        speed := Max(speed, -BackwardMaxSpeed);
        speed := speed + (u * 0.01 - 0.005);
      }
    }

    /** `reset`: back to the start point, but with rotation 0 rather than the
        start rotation. */
    method Reset()
      modifies this
      ensures position == Vec3(StartX, StartY, StartZ) && rotation == 0.0
      ensures speed == 0.0 && !forward && !backward && !left && !right && !crashed
    {
      position := Vec3(StartX, StartY, StartZ);
      rotation := 0.0;
      speed := 0.0;
      forward := false;
      backward := false;
      left := false;
      right := false;
      crashed := false;
    }
  }
}
