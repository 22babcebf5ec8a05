# Terrarium camera, waypoints and quaternion algebra — a Dafny model

The terrarium demo (`opengl/opengl/src/main.cpp`) fills a glass tank with fish,
water bugs and drifting particles. Each of them wanders between random waypoints,
turning with quaternions. A camera watches them, either along a scripted trajectory
or steered from the keyboard. This project models the logic of that program that
can be stated exactly, and proves properties of it in Dafny. The model has five
modules:

- `QuaternionMath` (`quaternion_math.dfy`) holds the static math helpers of
  `Program`:
  - the Hamilton product, conjugate, linear interpolation and cross product;
  - the Vec3 `Normalize`, `Scale`, the quaternion-to-matrix conversion and
    `TransformCoord`.

  Its lemmas prove that (0,0,0,1) is neutral for the product and that the
  product is associative. They also prove the conjugation laws, Euler's
  four-square identity and norm multiplicativity. Rotation by the sandwich
  product q · v · q\* preserves length, composes as a product, and agrees
  with the quaternion's rotation matrix.
- `Waypoints` (`waypoints.dfy`) holds `Object::Random_Point` with C's truncating
  float-to-int cast and `%`, the Board's bounds, and the `Object` class. `Object`
  has the resample-then-move step of `Object::Update`.
- `WaterBugs` (`water_bug.dfy`) holds the walk/rest counter automaton of
  `WaterBug::DrawFunc`, over 32-bit unsigned counters, and the `WaterBug` class.
- `Unsigned` (`unsigned.dfy`) holds C's 32-bit `unsigned`, shared by the water
  bug's counters and the camera's `FollowIndex`.
- `Cameras` (`camera.dfy`) holds the `Camera` struct, which is advanced once per
  frame by `Camera::Update`. It also holds the menu setters and the keyboard
  handlers of `Program`, which mutate the camera.

The source mutates objects in place, and the classes `Object`, `WaterBug`, `Camera`
and `Program` do the same. Each method is proved against a pure step function on a
value of the state (`Tick`, `MoveStep`, `KeyboardStep`, `SpecialStep`,
`SleepStep`, `Retarget`/`Displacement`). The properties are proved about those
functions.

Modelling conventions:

- `float` is modelled as `real`, so rounding is not modelled.
- Where the source takes a square root, the caller passes the magnitude in as
  `mag`, together with the fact that `mag * mag` is the squared norm.
  Comparisons of a distance with 1 are made on squared distances.
- `sin`, `cos` and the `fmod` timer advance are uninterpreted functions. They
  are bundled in `Cameras.Trig`.
- `Update_Direction`, which slerps toward the waypoint, is the uninterpreted
  `Steering` function.
- Every `rand()` result is a parameter, consumed in the source's call order.
- `unsigned` counters are the subtype `u32`, with wrap-around written out.

Points where the code's behaviour is easy to misread:

- The initial camera mode is `PREDEFINED_TRAJECTORY` with motion off. The
  program object is a zero-initialised static, and `Camera()` sets only
  `MotionMode`. It is not the free-navigation mode.
- `Timer` is reset by `SetPreTrajectory` and `SetBirdsEyeViewTrajectory` only.
  It is not reset on every mode switch.
- Waypoints lie in the half-open box (lower, upper]: the upper bound can be
  reached and the lower bound cannot. They do not lie strictly inside the box.
- The keyboard keys clear `MotionMode` but do not change the mode. Only
  `SpecialKey` switches to `NAVIGATION`.

## Model

| member | source | states |
|---|---|---|
| QuaternionMath.QuaternionConjugate | opengl/opengl/src/main.cpp:522-525 | the conjugate has the same squared norm, and its dot product with q is w² − (x² + y² + z²) |
| QuaternionMath.ConjugateInvolution | opengl/opengl/src/main.cpp:522-525 | conjugating twice returns the input |
| QuaternionMath.QuaternionMultiply | opengl/opengl/src/main.cpp:463-469 | (0,0,0,1), the default Orientation, is a left and right identity of the product |
| QuaternionMath.ConjugateOfProduct | opengl/opengl/src/main.cpp:463-469 | conj(p·q) = conj(q)·conj(p) |
| QuaternionMath.MultiplyByConjugate | opengl/opengl/src/main.cpp:463-469 | q·conj(q) is the real quaternion (0,0,0,\|q\|²) |
| QuaternionMath.MultiplyAssociative | opengl/opengl/src/main.cpp:463-469 | the product as written is associative |
| QuaternionMath.FourSquare | opengl/opengl/src/main.cpp:463-469 | the squared norm of the product's components is the product of the squared norms (Euler's four-square identity) |
| QuaternionMath.NormMultiplicative | opengl/opengl/src/main.cpp:463-469 | \|p·q\|² = \|p\|²·\|q\|² |
| QuaternionMath.PureProduct | opengl/opengl/src/main.cpp:463-469 | the product of two directions is (CrossProduct(a,b), −a·b) |
| QuaternionMath.RotateCompose | opengl/opengl/src/main.cpp:463-469 | turning by q and then by p is turning once by p·q |
| QuaternionMath.RotateExpanded | opengl/opengl/src/main.cpp:207 | the sandwich q·(v,0)·conj(q) multiplied out: the rotation-matrix formula, with w = 0 |
| QuaternionMath.Rotate | opengl/opengl/src/main.cpp:144 | turning by the identity orientation leaves the quaternion unchanged |
| QuaternionMath.RotateKeepsPure | opengl/opengl/src/main.cpp:207 | turning a direction yields a direction (w = 0) |
| QuaternionMath.RotatePreservesNorm | opengl/opengl/src/main.cpp:1045 | turning by a unit quaternion keeps the length of the direction |
| QuaternionMath.CrossProduct | opengl/opengl/src/main.cpp:549-556 | the result is orthogonal to both arguments |
| QuaternionMath.CrossAntiCommutative | opengl/opengl/src/main.cpp:549-556 | CrossProduct(a,b) = −CrossProduct(b,a) |
| QuaternionMath.LerpEndpoints | opengl/opengl/src/main.cpp:486-499 | at t = 0 the result is q1; at t = 1 it is q2, or −q2 when dot(q1,q2) < 0 |
| QuaternionMath.QuaternionLerp | opengl/opengl/src/main.cpp:486-499 | for t in [0,1] the result never has a negative dot product with q1 (the epsilon flip picks the nearer of q2 and −q2) |
| QuaternionMath.ToVec3 | opengl/opengl/src/main.cpp:607-610 | dropping w from a pure quaternion loses nothing: Pure(ToVec3(v)) = v when w = 0 |
| QuaternionMath.Normalize | opengl/opengl/src/main.cpp:557-564 | the result has length 1, and scaling it by the magnitude gives back the input |
| QuaternionMath.UnitDivision | opengl/opengl/src/main.cpp:557-564 | a vector divided componentwise by its length has squared length 1 |
| QuaternionMath.Scale | opengl/opengl/src/main.cpp:574-584 | a factor of exactly 0 gives the zero vector; otherwise the result has squared length s² and points along v (dot with v is s·\|v\|) |
| QuaternionMath.QuaternionToMatrix | opengl/opengl/src/main.cpp:470-485 | 16 entries; the unwritten bottom-row entries 3, 7 and 11 keep the static buffer's 0, and m[15] is 1, so every point gets w = 1 |
| QuaternionMath.TransformCoord | opengl/opengl/src/main.cpp:526-548 | a point whose homogeneous w is 0 maps to the origin; otherwise the result times w is the matrix product |
| QuaternionMath.MatrixRotates | opengl/opengl/src/main.cpp:470-485 | for a unit quaternion, TransformCoord with its matrix turns a point exactly as the sandwich q·(v,0)·conj(q) does |
| QuaternionMath.RotationMatrixIsAffine | opengl/opengl/src/main.cpp:470-485 | a quaternion's matrix has w = 1 for every point, so TransformCoord never takes its w == 0 branch on it |
| Waypoints.TruncToInt | opengl/opengl/src/main.cpp:127-129 | the (int) cast truncates toward zero: the result is within one unit of the input, on the zero side |
| Waypoints.CRem | opengl/opengl/src/main.cpp:127-129 | rand() % n for a non-negative dividend lies in [0, \|n\|) and differs from the dividend by a whole multiple of \|n\| |
| Waypoints.SampleAxis | opengl/opengl/src/main.cpp:127-129 | the coordinate is lower + k for a whole k in [1, \|(int)(upper − lower)\|]; with a range of at least 1 it lies in (lower, upper] |
| Waypoints.TruncZeroIff | opengl/opengl/src/main.cpp:123-131 | Random_Point divides by zero exactly when an axis range lies strictly between −1 and 1 |
| Waypoints.RandomPoint | opengl/opengl/src/main.cpp:123-131 | with every range at least 1, the point lies in the box (lower, upper] on every axis |
| Waypoints.TankPointsInTank | opengl/opengl/src/main.cpp:108-110 | fish and particle waypoints are valid and lie in (−20, 20] on every axis |
| Waypoints.FloorPointsOnFloor | opengl/opengl/src/main.cpp:108-110 | with the water bugs' UpperBounds_Floor (y range 1), every waypoint has y = −19 |
| Waypoints.Retarget | opengl/opengl/src/main.cpp:200-203 | a new waypoint is drawn exactly when the squared distance is at most 1; otherwise the waypoint is kept; a waypoint in the box stays in the box |
| Waypoints.Displacement | opengl/opengl/src/main.cpp:207-208 | for a unit orientation the step has length \|Speed\|/60 and its component along the turned forward axis is Speed/60, so it points along the heading; it is zero when Speed is 0 |
| Waypoints.HeadingIsUnit | opengl/opengl/src/main.cpp:207 | the forward axis turned by a unit orientation is a unit direction |
| Waypoints.Object.constructor | opengl/opengl/src/main.cpp:183-188 | position and waypoint are the first and second Random_Point draws, both in the box; speed is 2, and the orientation is steered from the identity |
| Waypoints.Object.SetSpeed | opengl/opengl/src/main.cpp:164-167 | sets the speed only |
| Waypoints.Object.Update | opengl/opengl/src/main.cpp:189-210 | the new waypoint is Retarget of the old state; the orientation is steered toward it; the position advances by Displacement of the new orientation; a waypoint in the box stays in the box |
| WaterBugs.Decrement | opengl/opengl/src/main.cpp:315 | unsigned post-decrement: the result plus one is the input modulo 2³² (0 wraps to 2³² − 1) |
| WaterBugs.SleepStep | opengl/opengl/src/main.cpp:308-317 | the speed is 0 exactly when SleepTimer was non-zero, and 2 otherwise; a resting bug counts SleepTimer down; a walking bug counts NextSleep down and, from 0, draws a rest of 1 to 60 frames |
| WaterBugs.StepPreservesValid | opengl/opengl/src/main.cpp:308-317 | SleepTimer ≤ 60, and "awake ⇒ NextSleep < 60", survive every frame |
| WaterBugs.RunPreservesValid | opengl/opengl/src/main.cpp:308-317 | the same invariant survives any run of frames |
| WaterBugs.RestLastsSleepTimer | opengl/opengl/src/main.cpp:308-312 | a bug with SleepTimer = k rests (speed 0) for exactly k frames, then wakes with NextSleep = last rand() % 60 |
| WaterBugs.WalkLastsNextSleep | opengl/opengl/src/main.cpp:313-317 | an awake bug with NextSleep = n walks (speed 2) for exactly n + 1 frames, then rests for 1 + rand() % 60 ∈ [1, 60] frames, with NextSleep wrapped to 2³² − 1 |
| WaterBugs.WaterBug.constructor | opengl/opengl/src/main.cpp:335-338 | an Object with an awake bug: SleepTimer 0, NextSleep = rand() % 60, a valid counter state |
| WaterBugs.WaterBug.DrawFunc | opengl/opengl/src/main.cpp:305-321 | the counters and the speed are those of SleepStep; position, waypoint and orientation are untouched |
| Cameras.Direction | opengl/opengl/src/main.cpp:421-424 | GetDirection is a pure quaternion, and eye + direction = at |
| Cameras.WithDirection | opengl/opengl/src/main.cpp:425-428 | SetDirection puts at = eye + dir and changes nothing else |
| Cameras.DirectionRoundTrip | opengl/opengl/src/main.cpp:421-428 | reading the direction back after SetDirection gives the vector part of dir; setting the current direction changes nothing |
| Cameras.MoveStep | opengl/opengl/src/main.cpp:429-439 | Move keeps GetDirection, moves the eye along it (against it for dir < 0) by exactly \|dir\| units, and changes only eye and at |
| Cameras.Follow | opengl/opengl/src/main.cpp:405-416 | FollowIndex is reduced modulo the entity count, at is that entity's position, and the eye is 4 units above it |
| Cameras.Tick | opengl/opengl/src/main.cpp:369-420 | with MotionMode off nothing changes; no mode changes MotionMode, the mode, up or Storage |
| Cameras.PredefinedSlides | opengl/opengl/src/main.cpp:376-385 | the eye is Storage·(16 + 14 cos Timer) with the old Timer; at stays; Timer advances; with a unit Storage the eye is 2 to 30 units from the origin |
| Cameras.CustomEases | opengl/opengl/src/main.cpp:386-393 | within one unit of Storage the eye stays; farther away it moves 1/300 of the way, shrinking the squared distance by (299/300)²; at is never touched |
| Cameras.BirdsEyeCircles | opengl/opengl/src/main.cpp:394-402 | at is the origin, the eye is at height 12 and on the circle of radius 12 about the y axis |
| Cameras.FollowCircles | opengl/opengl/src/main.cpp:403-416 | at is the followed entity (index reduced modulo the count), the eye is 4 above it and 4 units from it horizontally |
| Cameras.NavigationHolds | opengl/opengl/src/main.cpp:369-420 | NAVIGATION has no Update case, so a frame changes nothing |
| Cameras.PreTrajectory | opengl/opengl/src/main.cpp:636-645 | turns motion on, selects PREDEFINED_TRAJECTORY, resets Timer, places eye and at; Storage is the unit vector from At to Eye |
| Cameras.BirdsEye | opengl/opengl/src/main.cpp:646-651 | turns motion on, selects BIRDS_EYE_VIEW, resets Timer, and changes nothing else |
| Cameras.Custom | opengl/opengl/src/main.cpp:652-673 | turns motion on, selects CUSTOM_TRAJECTORY, and stores the three points read; Timer and FollowIndex are kept |
| Cameras.FollowMode | opengl/opengl/src/main.cpp:674-685 | turns motion on, selects the follow mode, resets FollowIndex, and changes nothing else |
| Cameras.PredefinedStartsAtEye | opengl/opengl/src/main.cpp:1175-1177 | with cos 0 = 1 the first frame puts the eye 30 units along Storage; for the menu's eye (0,0,30) that is the eye itself |
| Cameras.Increment | opengl/opengl/src/main.cpp:976 | unsigned pre-increment modulo 2³² |
| Cameras.KeyboardStep | opengl/opengl/src/main.cpp:969-1012 | the window is destroyed exactly for Escape and q; n/N only increment FollowIndex; every other key clears MotionMode; no key changes the mode, up or Timer |
| Cameras.AxisShift | opengl/opengl/src/main.cpp:978-995 | an axis key's shift is 2.3 units long |
| Cameras.KeyMovesCamera | opengl/opengl/src/main.cpp:969-1009 | f/F (b/B) move eye and at one unit along (against) the view direction, keeping it; X/Y/Z (x/y/z) add (subtract) 2.3 to that coordinate of the eye only; any other key only stops motion; nothing else changes |
| Cameras.NextKeyCycles | opengl/opengl/src/main.cpp:974-977 | n followed by a frame moves to the next entity, wrapping from the last back to index 0 |
| Cameras.SpecialStep | opengl/opengl/src/main.cpp:1013-1049 | every special key selects NAVIGATION and clears MotionMode and changes nothing but at; an unrecognised key leaves at alone; an arrow key sets the direction to the turned direction |
| Cameras.ArrowKeyTurns | opengl/opengl/src/main.cpp:1045-1046 | with a unit turn quaternion the new direction is the sandwich-turned old one, with the same length |
| Cameras.Camera.constructor | opengl/opengl/src/main.cpp:1112-1114 | the start-up state: eye (0,0,30), at the origin, up +y, motion off, the zero-initialised fields at 0 |
| Cameras.Camera.GetDirection | opengl/opengl/src/main.cpp:421-424 | eye + direction = at, with w = 0 |
| Cameras.Camera.SetDirection | opengl/opengl/src/main.cpp:425-428 | the new state is WithDirection of the old |
| Cameras.Camera.Move | opengl/opengl/src/main.cpp:429-439 | the new state is MoveStep of the old |
| Cameras.Camera.Update | opengl/opengl/src/main.cpp:369-420 | the new state is Tick of the old |
| Cameras.Camera.FollowEntity | opengl/opengl/src/main.cpp:403-416 | the new state is Follow of the old |
| Cameras.Program.constructor | opengl/opengl/src/main.cpp:1112-1114 | the program's camera is a new Camera in the start-up state |
| Cameras.Program.SetPreTrajectory | opengl/opengl/src/main.cpp:636-645 | the camera becomes PreTrajectory of its old state |
| Cameras.Program.SetBirdsEyeViewTrajectory | opengl/opengl/src/main.cpp:646-651 | the camera becomes BirdsEye of its old state |
| Cameras.Program.SetCustomTrajectory | opengl/opengl/src/main.cpp:652-673 | the camera becomes Custom of its old state with the three points |
| Cameras.Program.SetFollowFish | opengl/opengl/src/main.cpp:674-679 | the camera becomes FollowMode(old, FOLLOW_FISH) |
| Cameras.Program.SetFollowWaterbug | opengl/opengl/src/main.cpp:680-685 | the camera becomes FollowMode(old, FOLLOW_WATERBUG) |
| Cameras.Program.KeyboardEvent | opengl/opengl/src/main.cpp:969-1012 | the camera and the destroy-window outcome are those of KeyboardStep |
| Cameras.Program.SpecialKey | opengl/opengl/src/main.cpp:1013-1049 | the camera becomes SpecialStep of its old state |

## Left out

- Rendering and windowing are not modelled. This covers every OpenGL/GLU/GLUT call (drawing, display lists, lights, materials, menus, reshaping, `RunProgram`, the static callbacks), `Advance`'s drawing, and `glutDestroyWindow` itself. `KeyboardEvent` returns a flag for the last.
- `LoadTexture` is file I/O and is not modelled.
- `SetCustomTrajectory`'s console prompts and `scanf` are not modelled. The three points it reads are parameters.
- Functions built on transcendental math are not modelled: `QuaternionSlerp`, `QuaternionAxisAngle`, `Update_Direction`, `CalculateRotation`, `DotProduct`, `GetScale`, `ToRadians` and the Vec4 `Normalize`. `Update_Direction` enters `Object.Update` as the `Steering` function argument.
- Cameras.SpecialStep takes the turn quaternion as a parameter. The handler builds it from the normalised right and up axes and ±10 degrees. That construction uses sqrt, sin and cos and is not modelled.
- `Camera::Timer` is a field of the camera state. Its advance (`fmod(Timer + 2π/600, 2π)`) and sin/cos are the uninterpreted functions of `Trig`. The water bug's leg `Timer` and the fish's tail `Timer`/`Tail_Theta` are cosmetic and are not modelled.
- The `Fish` and `Particle` classes add nothing to movement beyond `Object`. The camera sees the fish and water bugs only through their positions, passed to `Update` as sequences.
- The default constructors `Object()`, `Fish()` and `WaterBug()` are not modelled. The program never uses them.
- `Object::Update`'s `SetLightComponent` material set-up is not modelled. It only feeds OpenGL.
- Floating-point rounding is not modelled, and neither are the NaNs it can produce. `Normalize`, `Scale` and `Camera::Move` divide by a zero magnitude when the vector is zero, so those members require a non-zero vector. This applies to Cameras.MoveStep and Cameras.KeyboardStep (keys f/F/b/B when eye == at), and Cameras.PreTrajectory (when At == Eye). Waypoints.Displacement's unit-orientation requirement has another cause, given in the Waypoints.Object.Update line below.
- Cameras.KeyboardStep uses the real 2.3 for the `2.3f` displacement. It is not the nearest float.
- Waypoints.TruncToInt does not model the undefined behaviour of converting an out-of-range float to int. Ranges here are at most 40.
- Random_Point's `(float)` conversion of the offset is exact for the board's ranges. It is modelled as an exact real.
- Waypoints.Object.Update requires the steered orientation to be a unit quaternion, and the source does not guarantee one. `Update_Direction` normalises CrossProduct((0,0,1), heading) (main.cpp:158). When the new heading is (0,0,±1), that cross product is zero, so the division is 0/0 and the orientation becomes NaN (main.cpp:160). A water bug's position and waypoint both have y = −19 (main.cpp:110, 128), so the direction to its waypoint has no y part. When the two draws also share x, that direction is (0,0,±1), and the first steering step already meets the degenerate case. The model excludes this case. It does not model the NaN orientation that follows.
- Cameras.SpecialStep does not model the same 0/0 in `SpecialKey` when the view direction is parallel to `up` (main.cpp:1024-1025). There the right axis and the turn quaternion built from it are NaN. The turn quaternion is a parameter of the model.
