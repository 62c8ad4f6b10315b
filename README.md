# Small physics and collision routines of js_canvas_app, in Dafny

This project models the parts of the `js_canvas_app` demos that hold real
logic, plus the frame rules of the car-track page:

- **Obstacles** (`obstacles.dfy`): the obstacle boxes of the p5 game and the
  sphere-versus-box test `sphereBoxCollision`, which clamps the centre into
  the box and compares the squared distance with the squared radius.
- **Players** (`players.dfy`): one player update. In order, it applies the
  input, the ground snap and jump, and gravity. It then moves along X, then
  Z, then Y, each axis checked against the obstacle list (first match wins),
  and finally damps the velocity by 0.9.
- **Balls** (`balls.dfy`): the bouncing ball of the physics demo.
- **Dots** (`dots.dfy`): the particles of the canvas trail demo.
- **Cars** (`cars.dfy`): the car of the Three.js race. It covers steering,
  pedals, friction toward zero, the speed limits, the random jitter, the
  crashed mode and reset.
- **Tracks** (`tracks.dfy`): closing a boundary polygon, and the even-odd
  point-in-polygon test.
- **RaceApp** (`race_app.dfy`): the key handlers, the off-track crash rule,
  the speed display and the order of work in one frame.

`vectors.dfy` holds the 2-D and 3-D vector values and a few facts about
squares that the other modules use.

Numbers are exact reals. The source's globals become explicit parameters:
the obstacle list, the player size, the canvas size, and the keyboard state.
Randomness (`Math.random`, p5 `random`) and trigonometry also come in as
parameters. An entity the source updates in place is a class. Each of its
methods states the new state as a function of the old one, and the
properties are proved about those functions.

The model keeps these behaviours of the code, which a reader might not expect:
- gravity is added on every update, even when grounded (Players.Player.ApplyGravity);
- the Z move is checked at the already-moved X (Players.MoveZ);
- a grounded player at rest on the ground keeps a downward velocity of 0.45
  (Players.RestingOnGroundIsFixedPoint, Players.GroundedAfterTick);
- the landing height is computed from the obstacle's centre, not its top face,
  so a landed player still overlaps the box (Players.LandingKeepsPlayerInsideObstacle).

## Model

| member | source | states |
|---|---|---|
| Obstacles.NewObstacle | js_canvas_app/p5js_samples/game/js/Obstacle.js:3-8 | keeps the given reference point; width in [50, 150), height in [100, 300), depth equal to the width |
| Obstacles.BoxGeometry | js_canvas_app/p5js_samples/game/js/Obstacle.js:37-52 | the box has extents w, h and d around the centre (pos.x, -(pos.y + h/2 - 1), pos.z); its y range is [-(pos.y + h - 1), -(pos.y - 1)]; it contains its centre |
| Obstacles.Constrain | js_canvas_app/p5js_samples/game/js/Obstacle.js:55-57 | the clamp lies in [low, high] and leaves a value already in range unchanged |
| Obstacles.ClosestPoint | js_canvas_app/p5js_samples/game/js/Obstacle.js:47-57 | the clamped point lies in the box and equals the centre when the centre is inside |
| Obstacles.SphereBoxCollision | js_canvas_app/p5js_samples/game/js/Obstacle.js:35-64 | the strict test: the squared distance from the centre to its clamp into the box is below radius squared; its meaning is stated by CollisionIffBoxPointInsideSphere and InsideBoxCollidesIffNonZeroRadius |
| Obstacles.ClampIsNearest | js_canvas_app/p5js_samples/game/js/Obstacle.js:55-57 | on one axis, the clamp is at least as close to the value as any point of the range |
| Obstacles.ClosestPointIsNearest | js_canvas_app/p5js_samples/game/js/Obstacle.js:55-62 | the clamped point is the point of the box nearest to the centre |
| Obstacles.CollisionIffBoxPointInsideSphere | js_canvas_app/p5js_samples/game/js/Obstacle.js:35-64 | the test is true exactly when some point of the closed box lies strictly inside the sphere |
| Obstacles.InsideBoxCollidesIffNonZeroRadius | js_canvas_app/p5js_samples/game/js/Obstacle.js:55-63 | a centre inside the box collides exactly when the radius is non-zero |
| Obstacles.TouchingTopFaceIsNoCollision | js_canvas_app/p5js_samples/game/js/Obstacle.js:63 | a sphere touching the top face is not a collision, because the comparison is strict |
| Obstacles.CollisionMonotoneInRadius | js_canvas_app/p5js_samples/game/js/Obstacle.js:60-63 | a collision at radius r >= 0 stays a collision at every larger radius |
| Obstacles.SeparatedOnOneAxisIsNoCollision | js_canvas_app/p5js_samples/game/js/Obstacle.js:55-63 | a centre more than the radius outside the box along any single axis never collides |
| Players.FirstHit | js_canvas_app/p5js_samples/game/js/Player.js:74-80 | the index of the first obstacle in list order that collides, or the list length if none does |
| Players.BlockedIffSomeCollision | js_canvas_app/p5js_samples/game/js/Player.js:120-125 | an axis is blocked exactly when some obstacle of the list collides at the position it checks |
| Players.FindCollision | js_canvas_app/p5js_samples/game/js/Player.js:74-80 | the loop with break finds a collision exactly when one exists, and it stops at the first one |
| Players.Movement | js_canvas_app/p5js_samples/game/js/Player.js:26-40 | the up arrow adds speed times the heading, the down arrow subtracts it, both together cancel; vertical velocity and position are unchanged |
| Players.GroundAndJump | js_canvas_app/p5js_samples/game/js/Player.js:42-60 | when y >= -1 the player is snapped to y 0 with zero vertical velocity and grounded, unless Space sets -jumpSpeed and airborne; when y < -1 it is airborne and X forces +jumpSpeed; grounded implies y 0 and zero vertical velocity |
| Players.WithGravity | js_canvas_app/p5js_samples/game/js/Player.js:62-65 | applyGravity as a step of the body: the vertical velocity gains 0.5, whether grounded or not; the contract is on Players.Player.ApplyGravity |
| Players.MoveX | js_canvas_app/p5js_samples/game/js/Player.js:117-130 | blocked: x is kept and vx becomes 0; free: x advances by vx and the moved sphere collides with nothing; y, z, vy, vz and grounded are untouched |
| Players.MoveZ | js_canvas_app/p5js_samples/game/js/Player.js:133-146 | the same rule on Z, checked at the current x |
| Players.Horizontal | js_canvas_app/p5js_samples/game/js/Player.js:115-147 | y, vy and grounded are untouched; with no obstacles x and z advance by their velocities |
| Players.Vertical | js_canvas_app/p5js_samples/game/js/Player.js:68-112 | no hit: y advances by vy; a hit on the first colliding obstacle zeroes vy; falling lands at the centre-based height and is grounded; rising is put under the box and is not grounded; zero vy keeps y and grounded |
| Players.Tick | js_canvas_app/p5js_samples/game/js/Player.js:11-23 | the five steps in source order, then velocity times 0.9; its properties are stated by GroundedAfterTick and RestingOnGroundIsFixedPoint, and Players.Player.Update is proved equal to it |
| Players.GroundedAfterTick | js_canvas_app/p5js_samples/game/js/Player.js:11-23 | a player grounded after an update has either just landed on an obstacle, at that obstacle's landing height with no vertical velocity, or stands at y 0.5 with a damped vertical velocity of 0.45 |
| Players.RestingOnGroundIsFixedPoint | js_canvas_app/p5js_samples/game/js/Player.js:11-23 | with no obstacles and no key held, a player at y 0.5 with vertical velocity 0.45 is a fixed point of the update, so being grounded does not mean resting |
| Players.RaisedIntoBoxStillCollides | js_canvas_app/p5js_samples/game/js/Player.js:87-95 | moving a colliding sphere vertically to a height within the box's vertical extent keeps it colliding |
| Players.LandingKeepsPlayerInsideObstacle | js_canvas_app/p5js_samples/game/js/Player.js:87-95 | a player that lands sits half its size above the box's centre height, and when it is no taller than the box it still collides with that box |
| Players.Player.constructor | js_canvas_app/p5js_samples/game/js/Player.js:2-9 | starts at (-800, -playerSize, 0) with zero velocity, not grounded, speed 1 and jump speed 10 |
| Players.Player.Update | js_canvas_app/p5js_samples/game/js/Player.js:11-23 | the new state is movement, ground and jump, gravity, horizontal, then vertical resolution, with the velocity then multiplied by 0.9 |
| Players.Player.HandleMovement | js_canvas_app/p5js_samples/game/js/Player.js:26-40 | the new state is Movement of the old one |
| Players.Player.HandleGroundAndJump | js_canvas_app/p5js_samples/game/js/Player.js:42-60 | the new state is GroundAndJump of the old one |
| Players.Player.ApplyGravity | js_canvas_app/p5js_samples/game/js/Player.js:62-65 | adds exactly 0.5 to the vertical velocity and changes nothing else, grounded or not; the new state is WithGravity of the old one |
| Players.Player.ResolveX | js_canvas_app/p5js_samples/game/js/Player.js:116-130 | the new state is MoveX of the old one |
| Players.Player.ResolveZ | js_canvas_app/p5js_samples/game/js/Player.js:132-146 | the new state is MoveZ of the old one |
| Players.Player.ResolveVerticalCollision | js_canvas_app/p5js_samples/game/js/Player.js:68-112 | the new state is Vertical of the old one |
| Players.Player.ResolveHorizontalCollision | js_canvas_app/p5js_samples/game/js/Player.js:115-147 | the new state is MoveX and then MoveZ of the old one |
| Balls.BounceNeverSpeedsUp | js_canvas_app/p5js_samples/physics_simulation/js/Ball.js:30-43 | with restitution in [0, 1], a reflection never increases the magnitude of the velocity component |
| Balls.FloorContact | js_canvas_app/p5js_samples/physics_simulation/js/Ball.js:30-33 | afterwards y + r <= height; a ball above the floor keeps y and its vertical velocity; one below it is put at height - r with its velocity reflected, never faster when restitution is in [0, 1] |
| Balls.Walls | js_canvas_app/p5js_samples/physics_simulation/js/Ball.js:35-43 | afterwards x + r <= width, and x >= r when the canvas is at least 2r wide; a ball between the walls is untouched; each single wall hit clamps and reflects; no bounce speeds up when restitution is in [0, 1] |
| Balls.Ball.constructor | js_canvas_app/p5js_samples/physics_simulation/js/Ball.js:2-17 | position and initial position are (x, y); velocity and acceleration are zero; restitution is 0.8 and gravity 0.5 |
| Balls.Ball.Update | js_canvas_app/p5js_samples/physics_simulation/js/Ball.js:20-44 | acceleration becomes (0, gravity) and is added before the move; floor, then left wall, then right wall clamp and reflect; afterwards y + r <= height and x + r <= width, and x >= r when the canvas is at least 2r wide; without floor contact y is unbounded above; no bounce speeds up when restitution is in [0, 1] |
| Balls.Ball.Integrate | js_canvas_app/p5js_samples/physics_simulation/js/Ball.js:22-27 | acceleration becomes (0, gravity), is added to the velocity, and the new velocity is added to the position |
| Balls.Ball.CheckFloor | js_canvas_app/p5js_samples/physics_simulation/js/Ball.js:30-33 | the y coordinate and vertical velocity become FloorContact of the old ones; x is untouched |
| Balls.Ball.CheckWalls | js_canvas_app/p5js_samples/physics_simulation/js/Ball.js:35-43 | the x coordinate and horizontal velocity become Walls of the old ones; y is untouched |
| Balls.Ball.Reset | js_canvas_app/p5js_samples/physics_simulation/js/Ball.js:77-81 | position becomes the initial position, velocity and acceleration become zero, and the initial position is kept |
| Dots.Bounce | js_canvas_app/canvas/trail/js/Dot.js:37-38 | the speed on the axis is kept; a coordinate within [0, limit] keeps its velocity; the velocity is reversed exactly when the coordinate is outside that range, or the velocity is 0 |
| Dots.StepKeepsBand | js_canvas_app/canvas/trail/js/Dot.js:32-39 | on one axis, a dot that is on the canvas or one step from it stays so after an update, and its speed is unchanged |
| Dots.Dot.constructor | js_canvas_app/canvas/trail/js/Dot.js:10-24 | from draws in [0, 1): x in [0, w), y in [0, h), radius in [1, 4), vx and vy in [-1, 1), hue in [0, 360) |
| Dots.Dot.Update | js_canvas_app/canvas/trail/js/Dot.js:32-39 | moves by exactly (vx, vy) without clamping; a component is negated exactly when the moved coordinate is outside its closed range; speeds are unchanged; a dot landing on the canvas keeps its velocity; the one-step band is preserved |
| Cars.Friction | js_canvas_app/threejs_samples/car_track/js/car.js:48-52 | moves the speed toward 0 by the friction, never across 0 |
| Cars.Accelerate | js_canvas_app/threejs_samples/car_track/js/car.js:61-71 | forward only adds 0.01, backward only subtracts 0.04, otherwise friction of 0.02 |
| Cars.ClampSpeed | js_canvas_app/threejs_samples/car_track/js/car.js:74-75 | the clamped speed lies in [-0.5, 1.8] and a speed already in range is kept |
| Cars.Jitter | js_canvas_app/threejs_samples/car_track/js/car.js:76 | the jitter lies in [-0.005, 0.005) |
| Cars.DrivingSpeed | js_canvas_app/threejs_samples/car_track/js/car.js:60-77 | the speed of a car that is not crashed ends in [-0.505, 1.805) |
| Cars.CrashedStep | js_canvas_app/threejs_samples/car_track/js/car.js:46-58 | a crashed car ignores the pedals and loses 0.1 toward 0; below 0.01 it restarts at 0.1 and is no longer crashed |
| Cars.NextSpeed | js_canvas_app/threejs_samples/car_track/js/car.js:44-77 | a car that is not crashed stays so, with speed in [-0.505, 1.805); a crashed car that stays crashed has slowed strictly; one that recovers has speed 0.1 |
| Cars.CrashEndsWithin | js_canvas_app/threejs_samples/car_track/js/car.js:44-58 | a crashed car with speed magnitude at most n times 0.1 recovers at speed 0.1 within n updates, whatever is pressed |
| Cars.Advance | js_canvas_app/threejs_samples/car_track/js/car.js:80-81 | moves in the track plane only; for a unit heading (cos squared plus sin squared equal to 1) the car moves by exactly the speed's magnitude |
| Cars.Car.constructor | js_canvas_app/threejs_samples/car_track/js/car.js:4-28 | starts at (100, 200, 2) with the start rotation, speed 0, and every flag false |
| Cars.Car.Update | js_canvas_app/threejs_samples/car_track/js/car.js:37-82 | steers, then sets speed and crashed by NextSpeed, then moves back along the pre-steering heading by the new speed |
| Cars.Car.Steer | js_canvas_app/threejs_samples/car_track/js/car.js:40-41 | left adds 0.03 to the rotation and right subtracts 0.03; both together cancel |
| Cars.Car.ChangeSpeed | js_canvas_app/threejs_samples/car_track/js/car.js:43-77 | speed and crashed become NextSpeed of the old speed, the flag and the pedals |
| Cars.Car.Reset | js_canvas_app/threejs_samples/car_track/js/car.js:92-101 | position becomes (100, 200, 2) and rotation 0, not the start rotation; speed 0; all flags false |
| Tracks.Closed | js_canvas_app/threejs_samples/car_track/js/track.js:47-52 | fewer than 2 points are kept; a copy of the first point is appended exactly when it is farther than 1e-6 (squared) from the last; afterwards first and last are within the tolerance |
| Tracks.ClosedIsIdempotent | js_canvas_app/threejs_samples/car_track/js/track.js:47-52 | closing a closed polygon changes nothing |
| Tracks.ClosePolygon | js_canvas_app/threejs_samples/car_track/js/track.js:47-52 | the points become Closed of the old points |
| Tracks.IsPointInPolygon | js_canvas_app/threejs_samples/car_track/js/track.js:54-67 | the result is the parity of the number of edges (vertex j to vertex i, j the previous index with wrap-around) that pass the crossing test |
| Tracks.NonStraddlingEdgeNeverCounts | js_canvas_app/threejs_samples/car_track/js/track.js:62-63 | an edge with both ends above the point, or both at or below it, never toggles the result |
| Tracks.LineMissingPolygonIsOutside | js_canvas_app/threejs_samples/car_track/js/track.js:54-67 | a point whose horizontal line is above or below all vertices, including any point against the empty polygon, is outside |
| Tracks.ClosingPreservesInside | js_canvas_app/threejs_samples/car_track/js/track.js:47-67 | closing a polygon does not change which points are inside it |
| RaceApp.OnKey | js_canvas_app/threejs_samples/car_track/js/app.js:27-42 | ArrowLeft, ArrowRight, Space and ArrowDown set left, right, forward and backward; other keys change nothing |
| RaceApp.PressThenReleaseRestores | js_canvas_app/threejs_samples/car_track/js/app.js:27-42 | a press then a release equals a release alone, and restores every flag when the key was not held |
| RaceApp.KeyEventIsIdempotent | js_canvas_app/threejs_samples/car_track/js/app.js:27-42 | a repeated key event changes nothing further |
| RaceApp.KeyDown | js_canvas_app/threejs_samples/car_track/js/app.js:27-34 | the flags become OnKey of the old flags with the key pressed |
| RaceApp.KeyUp | js_canvas_app/threejs_samples/car_track/js/app.js:35-42 | the flags become OnKey of the old flags with the key released, and the speed is untouched |
| RaceApp.CheckCollision | js_canvas_app/threejs_samples/car_track/js/app.js:44-52 | crashed becomes true exactly when the front point is not inside the outer boundary and outside the inner one; it is never cleared |
| RaceApp.OffTrackCases | js_canvas_app/threejs_samples/car_track/js/app.js:44-52 | a front point inside the inner boundary, or whose line misses the outer one, is off the track |
| RaceApp.ClosingKeepsTrack | js_canvas_app/threejs_samples/car_track/js/app.js:44-52 | closing the boundaries does not change which points are on the track |
| RaceApp.Round | js_canvas_app/threejs_samples/car_track/js/app.js:68 | the rounded integer lies in (x - 0.5, x + 0.5] |
| RaceApp.SpeedDisplay | js_canvas_app/threejs_samples/car_track/js/app.js:63-73 | the shown value is 0 or at least 1; it is 0 exactly when 3.6 times the speed is below 0.95, negatives included; otherwise it is within 0.05 of 3.6 times the speed and has one decimal |
| RaceApp.SpeedDisplayIsMonotone | js_canvas_app/threejs_samples/car_track/js/app.js:63-73 | a higher speed never shows a lower value |
| RaceApp.Frame | js_canvas_app/threejs_samples/car_track/js/app.js:55-61 | the car updates first, then the crash rule is applied to the moved car, then the display is computed from the new speed; the rotation is steered by the held flags, and the flags are untouched |

Three methods are split into helpers, each called in the source's order:
- Players.Player.ResolveHorizontalCollision into ResolveX and ResolveZ;
- Balls.Ball.Update into Integrate, CheckFloor and CheckWalls;
- Cars.Car.Update into Steer and ChangeSpeed.

## Left out

- Rendering and logging: `display`, `draw`, `displayStatus`, the Three.js meshes and textures, the DOM write of the speed, and the `console.log` message of `checkCollision`.
- Trigonometry: the player's heading (`sin`/`cos` of the camera angle) and the car's heading are inputs. `getFrontPosition` is not modelled; the front point is an input of the frame.
- `loadTrack` (fetch and Catmull-Rom sampling) and `createGuardMeshFromPolygon` are not part of this model.
- Randomness: each `Math.random()` or p5 `random` draw is a parameter in [0, 1).
- Floating point: numbers are exact reals, so IEEE rounding, infinities and NaN are not modelled. The `=== NaN` guard of the speed display can never fire, and it is left out.
- Cars.Car.constructor: the start rotation, 90 degrees in radians, is passed in, because pi is not a real literal.
- Dots.Dot.constructor: the colour string `hsl(...)` is kept as its hue.
- Tracks.IsPointInPolygon: requires the divisor (yj - yi) + 1e-6 to be non-zero on straddling edges. It is zero only when yj - yi is exactly -1e-6, on an edge with yi > y >= yj. In the source such an edge does not raise an error. On a non-vertical edge the quotient is plus or minus Infinity, so `x < +Infinity` toggles the result and `x < -Infinity` does not. On a vertical edge (xj == xi) it is 0/0 = NaN, so the comparison is false and the edge never toggles. The model does not cover these edges.
- RaceApp.CheckCollision: carries the same non-zero divisor requirement for both boundaries.
- RaceApp.Frame: carries the same non-zero divisor requirement for both boundaries.
- Vectors are values. The source never shares one vector object between two fields (Ball.reset stores a copy of the initial position), so value semantics lose nothing.
