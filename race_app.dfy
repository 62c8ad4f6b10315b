/** The frame rules of the car-track page (js/app.js): key events set the
    car's pedal and steering flags, a car whose front leaves the ring between
    the outer and inner boundary crashes, and the speed shown is km/h rounded
    to one decimal with everything below 1 shown as 0. */
module RaceApp {
  import opened Vectors
  import opened Cars
  import opened Tracks

  // ---------------------------------------------------------------------------
  // Keyboard

  /** The four flags the key handlers write. */
  datatype Controls = Controls(left: bool, right: bool, forward: bool, backward: bool)

  function ControlsOf(car: Car): Controls
    reads car
  {
    Controls(car.left, car.right, car.forward, car.backward)
  }

  /** The keys the handlers react to. */
  predicate Bound(code: string) {
    code == "ArrowLeft" || code == "ArrowRight" || code == "Space" || code == "ArrowDown"
  }

  /** The flags after a key event: `down` for keydown, `!down` for keyup. */
  function OnKey(c: Controls, code: string, down: bool): (r: Controls)
    ensures !Bound(code) ==> r == c
    ensures r.left == (if code == "ArrowLeft" then down else c.left)
    ensures r.right == (if code == "ArrowRight" then down else c.right)
    ensures r.forward == (if code == "Space" then down else c.forward)
    ensures r.backward == (if code == "ArrowDown" then down else c.backward)
  {
    match code
    case "ArrowLeft" => c.(left := down)
    case "ArrowRight" => c.(right := down)
    case "Space" => c.(forward := down)
    case "ArrowDown" => c.(backward := down)
    case _ => c
  }

  /** Pressing and then releasing a key puts every flag back as it was,
      unless that key was already held, in which case it ends up released. */
  lemma PressThenReleaseRestores(c: Controls, code: string)
    ensures var r := OnKey(OnKey(c, code, true), code, false);
            r == OnKey(c, code, false) &&
            (OnKey(c, code, true) == c ==> Bound(code) ==> r != c) &&
            (OnKey(c, code, false) == c ==> r == c)
  {
  }

  /** Repeated key events of one kind (auto-repeat) change nothing further. */
  lemma KeyEventIsIdempotent(c: Controls, code: string, down: bool)
    ensures OnKey(OnKey(c, code, down), code, down) == OnKey(c, code, down)
  {
  }

  /** The keydown handler. */
  method KeyDown(car: Car, code: string)
    modifies car`left, car`right, car`forward, car`backward
    ensures ControlsOf(car) == OnKey(old(ControlsOf(car)), code, true)
  {
    match code
    case "ArrowLeft" => car.left := true;
    case "ArrowRight" => car.right := true;
    case "Space" => car.forward := true;
    case "ArrowDown" => car.backward := true;
    case _ =>
  }

  /** The keyup handler; releasing a pedal does not touch the speed. */
  method KeyUp(car: Car, code: string)
    modifies car`left, car`right, car`forward, car`backward
    ensures ControlsOf(car) == OnKey(old(ControlsOf(car)), code, false)
    ensures car.speed == old(car.speed)
  {
    match code
    case "ArrowLeft" => car.left := false;
    case "ArrowRight" => car.right := false;
    case "Space" => car.forward := false;
    case "ArrowDown" => car.backward := false;
    case _ =>
  }

  // ---------------------------------------------------------------------------
  // Leaving the track

  /** The front point is on the track: inside the outer boundary and not
      inside the inner one. */
  predicate OnTrack(front: Vec2, outer: seq<Vec2>, inner: seq<Vec2>)
    requires Computable(front, outer) && Computable(front, inner)
  {
    Inside(front, outer) && !Inside(front, inner)
  }

  /** `checkCollision`: crashes the car when its front point is off the
      track; it never clears the flag. */
  method CheckCollision(car: Car, front: Vec2, outer: Polygon, inner: Polygon)
    requires Computable(front, outer.points) && Computable(front, inner.points)
    modifies car`crashed
    ensures car.crashed == (old(car.crashed) || !OnTrack(front, outer.points, inner.points))
  {
    var inOuter := IsPointInPolygon(front, outer);
    var inInner := IsPointInPolygon(front, inner);
    if !(inOuter && !inInner) {
      car.crashed := true;
    }
  }

  /** A front point whose horizontal line misses the outer boundary, or that
      is inside the inner boundary, is off the track. */
  lemma OffTrackCases(front: Vec2, outer: seq<Vec2>, inner: seq<Vec2>)
    requires Computable(front, outer) && Computable(front, inner)
    requires (forall i :: 0 <= i < |outer| ==> outer[i].y > front.y) ||
             (forall i :: 0 <= i < |outer| ==> outer[i].y <= front.y) ||
             Inside(front, inner)
    ensures !OnTrack(front, outer, inner)
  {
    if !Inside(front, inner) {
      LineMissingPolygonIsOutside(front, outer, |outer|);
    }
  }

  /** Whether the sampled boundaries were closed at load time does not change
      which points are on the track. */
  lemma ClosingKeepsTrack(front: Vec2, outer: seq<Vec2>, inner: seq<Vec2>)
    requires Computable(front, outer) && Computable(front, inner)
    ensures Computable(front, Closed(outer)) && Computable(front, Closed(inner))
    ensures OnTrack(front, Closed(outer), Closed(inner)) <==> OnTrack(front, outer, inner)
  {
    ClosingPreservesInside(front, outer);
    ClosingPreservesInside(front, inner);
  }

  // ---------------------------------------------------------------------------
  // Speed display

  /** JavaScript's `Math.round`: the nearest integer, halves rounded up. */
  function Round(x: real): (n: int)
    ensures x - 0.5 < n as real <= x + 0.5
  {
    (x + 0.5).Floor
  }

  /** `updateSpeedDisplay`: speed per frame times 3.6, rounded to one
      decimal, shown as 0 when below 1. */
  function SpeedDisplay(speed: real): (r: real)
    ensures r == 0.0 || r >= 1.0
    ensures r == 0.0 <==> speed * 3.6 < 0.95
    ensures r != 0.0 ==> Abs(r - speed * 3.6) <= 0.05
    ensures (r * 10.0).Floor as real == r * 10.0
  {
    var v := Round(speed * 3.6 * 10.0) as real / 10.0;
    if v < 1.0 then 0.0 else v
  }

  /** A faster car never shows a lower speed. */
  lemma SpeedDisplayIsMonotone(s: real, t: real)
    requires s <= t
    ensures SpeedDisplay(s) <= SpeedDisplay(t)
  {
    assert Round(s * 3.6 * 10.0) <= Round(t * 3.6 * 10.0);
  }

  // ---------------------------------------------------------------------------
  // One frame

  /** The model part of `animate`: the car moves, then the crash rule is
      applied at the front point of the moved car, then the display value is
      computed from the new speed. The front point, which the source derives
      from the new position by trigonometry, is an input. */
  method Frame(car: Car, cosAngle: real, sinAngle: real, u: real,
               front: Vec2, outer: Polygon, inner: Polygon) returns (shown: real)
    requires 0.0 <= u < 1.0
    requires Computable(front, outer.points) && Computable(front, inner.points)
    modifies car
    ensures ControlsOf(car) == old(ControlsOf(car))
    ensures car.rotation == old(car.rotation) + (if car.left then RotationSpeed else 0.0)
                                              - (if car.right then RotationSpeed else 0.0)
    ensures car.position == Advance(old(car.position), cosAngle, sinAngle, car.speed)
    ensures car.speed == NextSpeed(old(car.speed), old(car.crashed), car.forward, car.backward, u).0
    ensures car.crashed == (NextSpeed(old(car.speed), old(car.crashed), car.forward, car.backward, u).1
                            || !OnTrack(front, outer.points, inner.points))
    ensures shown == SpeedDisplay(car.speed)
  {
    car.Update(cosAngle, sinAngle, u);
    CheckCollision(car, front, outer, inner);
    shown := SpeedDisplay(car.speed);
  }
}
