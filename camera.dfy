// The camera: a small state machine of trajectory modes, advanced once per
// frame by Camera::Update and steered by the menu setters and the keyboard.

module Cameras {
  import opened QuaternionMath
  import opened Unsigned

  datatype Trajectory =
    | PredefinedTrajectory
    | CustomTrajectory
    | BirdsEyeView
    | FollowFish
    | FollowWaterbug
    | Navigation

  /** The transcendental parts of a frame: sin, cos, and the timer advance
      Timer := fmod(Timer + 2*PI / 600, 2*PI) shared by every moving mode. */
  datatype Trig = Trig(sin: real -> real, cos: real -> real, advance: real -> real)

  /** The fields of the Camera struct. */
  datatype CameraState = CameraState(
    eye: Vec3, at: Vec3, up: Vec3,
    motionMode: bool, mode: Trajectory,
    timer: real, followIndex: u32, storage: Vec3)

  /** The camera at start-up. The program object is a zero-initialised
      static, so the fields Camera() leaves alone start at 0 (mode
      PREDEFINED_TRAJECTORY); RunProgram then places the eye at (0,0,30)
      looking at the origin with +y up. */
  const InitialState := CameraState(
    Vec3(0.0, 0.0, 30.0), Origin, Vec3(0.0, 1.0, 0.0),
    false, PredefinedTrajectory, 0.0, 0, Origin)

  // ---------------------------------------------------------------------
  // View direction

  /** GetDirection: the vector from the eye to the look-at point, as a pure
      quaternion. */
  function Direction(s: CameraState): (d: Vec4)
    ensures d.w == 0.0 && Add3(s.eye, ToVec3(d)) == s.at
  {
    Vec4(s.at.x - s.eye.x, s.at.y - s.eye.y, s.at.z - s.eye.z, 0.0)
  }

  /** SetDirection: look along `dir` from the current eye. */
  function WithDirection(s: CameraState, dir: Vec4): (r: CameraState)
    ensures r.eye == s.eye && r.at == Add3(s.eye, ToVec3(dir))
    ensures r.(at := s.at) == s
  {
    s.(at := Vec3(s.eye.x + dir.x, s.eye.y + dir.y, s.eye.z + dir.z))
  }

  /** Setting a direction and reading it back returns its vector part, and
      setting the current direction changes nothing. */
  lemma DirectionRoundTrip(s: CameraState, dir: Vec4)
    ensures Direction(WithDirection(s, dir)) == Pure(ToVec3(dir))
    ensures WithDirection(s, Direction(s)) == s
  {
  }

  // ---------------------------------------------------------------------
  // Normalised steps

  /** A vector scaled by k has k^2 times the squared length. */
  lemma ScaledLength(x: real, y: real, z: real, k: real)
    ensures (x * k) * (x * k) + (y * k) * (y * k) + (z * k) * (z * k) == (k * k) * (x * x + y * y + z * z)
  {
  }

  lemma ScaledNormSq(v: Vec3, k: real)
    ensures NormSq3(Mul3(v, k)) == (k * k) * NormSq3(v)
  {
    ScaledLength(v.x, v.y, v.z, k);
  }

  /** Squaring is monotone on [2, 30]. */
  lemma SquareBounds(k: real)
    requires 2.0 <= k <= 30.0
    ensures 4.0 <= k * k <= 900.0
  {
    NonNegativeProduct(k - 2.0, k + 2.0);
    NonNegativeProduct(30.0 - k, 30.0 + k);
  }

  /** Camera::Move: slide eye and look-at point together by `dir` units along
      the normalised view direction. `mag` is the length of the view
      direction (the square root Normalize takes): the eye moves along the
      view direction (against it when dir < 0), by |dir| units. */
  function MoveStep(s: CameraState, dir: real, mag: real): (r: CameraState)
    requires mag > 0.0 && mag * mag == NormSq3(ToVec3(Direction(s)))
    ensures Direction(r) == Direction(s)
    ensures Mul3(Sub3(r.eye, s.eye), mag) == Mul3(ToVec3(Direction(s)), dir)
    ensures DistSq(s.eye, r.eye) == dir * dir
    ensures r.(eye := s.eye, at := s.at) == s
  {
    var v := ToVec3(Direction(s));
    var u := Normalize(v, mag);
    ScaledNormSq(u, dir);
    assert Sub3(Vec3(s.eye.x + dir * u.x, s.eye.y + dir * u.y, s.eye.z + dir * u.z), s.eye) == Mul3(u, dir);
    assert Mul3(Mul3(u, dir), mag) == Mul3(Mul3(u, mag), dir) by {
      assert (u.x * dir) * mag == (u.x * mag) * dir;
      assert (u.y * dir) * mag == (u.y * mag) * dir;
      assert (u.z * dir) * mag == (u.z * mag) * dir;
    }
    s.(eye := Vec3(s.eye.x + dir * u.x, s.eye.y + dir * u.y, s.eye.z + dir * u.z),
       at := Vec3(s.at.x + dir * u.x, s.at.y + dir * u.y, s.at.z + dir * u.z))
  }

  // ---------------------------------------------------------------------
  // Camera::Update

  /** The follow modes index into their entity list, which must then be
      non-empty (FollowIndex % size would divide by zero). */
  predicate FollowReady(s: CameraState, fish: seq<Vec3>, bugs: seq<Vec3>) {
    s.motionMode ==>
      (s.mode == FollowFish ==> |fish| > 0) && (s.mode == FollowWaterbug ==> |bugs| > 0)
  }

  /** Circle four units above the entity FollowIndex (reduced modulo the
      number of entities) points at. */
  function Follow(s: CameraState, entities: seq<Vec3>, trig: Trig): (r: CameraState)
    requires |entities| > 0
    ensures r.followIndex < |entities| && r.followIndex == s.followIndex % |entities|
    ensures r.at == entities[r.followIndex] && r.eye.y == r.at.y + 4.0
  {
    var i := s.followIndex % |entities|;
    var where := entities[i];
    var t := trig.advance(s.timer);
    s.(followIndex := i, timer := t, at := where,
       eye := Vec3(where.x + 4.0 * trig.sin(t), where.y + 4.0, where.z + 4.0 * trig.cos(t)))
  }

  /** One frame of Camera::Update, given the positions of the fish and of
      the water bugs. Nothing moves unless MotionMode is set. */
  function Tick(s: CameraState, fish: seq<Vec3>, bugs: seq<Vec3>, trig: Trig): (r: CameraState)
    requires FollowReady(s, fish, bugs)
    ensures !s.motionMode ==> r == s
    ensures r.motionMode == s.motionMode && r.mode == s.mode && r.up == s.up && r.storage == s.storage
  {
    if !s.motionMode then s
    else
      match s.mode
      case PredefinedTrajectory =>
        var quantity := 14.0 * trig.cos(s.timer);
        s.(timer := trig.advance(s.timer),
           eye := Vec3(s.storage.x * 16.0 + s.storage.x * quantity,
                       s.storage.y * 16.0 + s.storage.y * quantity,
                       s.storage.z * 16.0 + s.storage.z * quantity))
      case CustomTrajectory =>
        var dis := Sub3(s.storage, s.eye);
        var k := if NormSq3(dis) > 1.0 then 1.0 / 300.0 else 0.0;
        s.(eye := Vec3(s.eye.x + dis.x * k, s.eye.y + dis.y * k, s.eye.z + dis.z * k))
      case BirdsEyeView =>
        var t := trig.advance(s.timer);
        s.(timer := t, at := Origin, eye := Vec3(12.0 * trig.sin(t), 12.0, 12.0 * trig.cos(t)))
      case FollowFish => Follow(s, fish, trig)
      case FollowWaterbug => Follow(s, bugs, trig)
      case Navigation => s
  }

  /** A predefined trajectory slides the eye along the Storage axis, at
      16 + 14 cos(Timer) from the origin: between 2 and 30 units when Storage
      is a unit vector. The look-at point stays. */
  lemma PredefinedSlides(s: CameraState, fish: seq<Vec3>, bugs: seq<Vec3>, trig: Trig)
    requires s.motionMode && s.mode == PredefinedTrajectory
    ensures Tick(s, fish, bugs, trig).eye == Mul3(s.storage, 16.0 + 14.0 * trig.cos(s.timer))
    ensures Tick(s, fish, bugs, trig).at == s.at
    ensures Tick(s, fish, bugs, trig).timer == trig.advance(s.timer)
    ensures NormSq3(s.storage) == 1.0 && -1.0 <= trig.cos(s.timer) <= 1.0 ==>
      4.0 <= NormSq3(Tick(s, fish, bugs, trig).eye) <= 900.0
  {
    var k := 16.0 + 14.0 * trig.cos(s.timer);
    var r := Tick(s, fish, bugs, trig);
    assert r.eye == Mul3(s.storage, k);
    ScaledNormSq(s.storage, k);
    if NormSq3(s.storage) == 1.0 && -1.0 <= trig.cos(s.timer) <= 1.0 {
      SquareBounds(k);
    }
  }

  /** A custom trajectory eases the eye toward Storage by 1/300 of the
      remaining way per frame while it is more than one unit away, and holds
      it once within one unit. The look-at point is never touched. */
  lemma CustomEases(s: CameraState, fish: seq<Vec3>, bugs: seq<Vec3>, trig: Trig)
    requires s.motionMode && s.mode == CustomTrajectory
    ensures Tick(s, fish, bugs, trig).at == s.at
    ensures DistSq(s.eye, s.storage) <= 1.0 ==> Tick(s, fish, bugs, trig).eye == s.eye
    ensures DistSq(s.eye, s.storage) > 1.0 ==>
      Tick(s, fish, bugs, trig).eye == Add3(s.eye, Mul3(Sub3(s.storage, s.eye), 1.0 / 300.0))
    ensures DistSq(s.eye, s.storage) > 1.0 ==>
      DistSq(Tick(s, fish, bugs, trig).eye, s.storage)
        == (299.0 / 300.0) * (299.0 / 300.0) * DistSq(s.eye, s.storage)
      && DistSq(Tick(s, fish, bugs, trig).eye, s.storage) < DistSq(s.eye, s.storage)
  {
    var r := Tick(s, fish, bugs, trig);
    if DistSq(s.eye, s.storage) > 1.0 {
      var dis := Sub3(s.storage, s.eye);
      assert Sub3(s.storage, r.eye) == Mul3(dis, 299.0 / 300.0);
      ScaledNormSq(dis, 299.0 / 300.0);
    }
  }

  /** The bird's-eye view looks at the origin from height 12, circling the
      y axis at radius 12 (given sin^2 + cos^2 == 1 at the new Timer). */
  lemma BirdsEyeCircles(s: CameraState, fish: seq<Vec3>, bugs: seq<Vec3>, trig: Trig)
    requires s.motionMode && s.mode == BirdsEyeView
    ensures Tick(s, fish, bugs, trig).at == Origin && Tick(s, fish, bugs, trig).eye.y == 12.0
    ensures var t := trig.advance(s.timer);
      trig.sin(t) * trig.sin(t) + trig.cos(t) * trig.cos(t) == 1.0 ==>
        var e := Tick(s, fish, bugs, trig).eye; e.x * e.x + e.z * e.z == 144.0
  {
    var t := trig.advance(s.timer);
    var e := Tick(s, fish, bugs, trig).eye;
    assert e.x * e.x + e.z * e.z == 144.0 * (trig.sin(t) * trig.sin(t) + trig.cos(t) * trig.cos(t));
  }

  /** The follow modes look at the followed entity from four units above it,
      circling it at radius 4 (given sin^2 + cos^2 == 1 at the new Timer). */
  lemma FollowCircles(s: CameraState, fish: seq<Vec3>, bugs: seq<Vec3>, trig: Trig)
    requires s.motionMode && (s.mode == FollowFish || s.mode == FollowWaterbug)
    requires FollowReady(s, fish, bugs)
    ensures var entities := if s.mode == FollowFish then fish else bugs;
      var r := Tick(s, fish, bugs, trig);
      r.followIndex == s.followIndex % |entities| && r.at == entities[r.followIndex]
      && r.eye.y == r.at.y + 4.0
    ensures var t := trig.advance(s.timer);
      trig.sin(t) * trig.sin(t) + trig.cos(t) * trig.cos(t) == 1.0 ==>
        var r := Tick(s, fish, bugs, trig);
        (r.eye.x - r.at.x) * (r.eye.x - r.at.x) + (r.eye.z - r.at.z) * (r.eye.z - r.at.z) == 16.0
  {
    var t := trig.advance(s.timer);
    var r := Tick(s, fish, bugs, trig);
    assert (r.eye.x - r.at.x) * (r.eye.x - r.at.x) + (r.eye.z - r.at.z) * (r.eye.z - r.at.z)
      == 16.0 * (trig.sin(t) * trig.sin(t) + trig.cos(t) * trig.cos(t));
  }

  /** Navigation mode has no Update case: the camera only moves by keys. */
  lemma NavigationHolds(s: CameraState, fish: seq<Vec3>, bugs: seq<Vec3>, trig: Trig)
    requires s.mode == Navigation
    ensures Tick(s, fish, bugs, trig) == s
  {
  }

  // ---------------------------------------------------------------------
  // Menu setters

  /** SetPreTrajectory(At, Eye): Storage is the unit vector from At to Eye;
      `mag` is its length before normalising. */
  function PreTrajectory(s: CameraState, at: Vec3, eye: Vec3, mag: real): (r: CameraState)
    requires mag > 0.0 && mag * mag == DistSq(at, eye)
    ensures r.motionMode && r.mode == PredefinedTrajectory && r.timer == 0.0
    ensures r.eye == eye && r.at == at && r.up == s.up && r.followIndex == s.followIndex
    ensures NormSq3(r.storage) == 1.0 && Mul3(r.storage, mag) == Sub3(eye, at)
  {
    s.(timer := 0.0, mode := PredefinedTrajectory, motionMode := true, eye := eye, at := at,
       storage := Normalize(Sub3(eye, at), mag))
  }

  function BirdsEye(s: CameraState): (r: CameraState)
    ensures r.motionMode && r.mode == BirdsEyeView && r.timer == 0.0
    ensures r.(motionMode := s.motionMode, mode := s.mode, timer := s.timer) == s
  {
    s.(motionMode := true, mode := BirdsEyeView, timer := 0.0)
  }

  /** SetCustomTrajectory once its three points have been read. */
  function Custom(s: CameraState, eye: Vec3, at: Vec3, goal: Vec3): (r: CameraState)
    ensures r.motionMode && r.mode == CustomTrajectory
    ensures r.eye == eye && r.at == at && r.storage == goal
    ensures r.timer == s.timer && r.followIndex == s.followIndex && r.up == s.up
  {
    s.(eye := eye, at := at, storage := goal, motionMode := true, mode := CustomTrajectory)
  }

  function FollowMode(s: CameraState, mode: Trajectory): (r: CameraState)
    requires mode == FollowFish || mode == FollowWaterbug
    ensures r.motionMode && r.mode == mode && r.followIndex == 0
    ensures r.(motionMode := s.motionMode, mode := s.mode, followIndex := s.followIndex) == s
  {
    s.(motionMode := true, followIndex := 0, mode := mode)
  }

  /** The first frame of a predefined trajectory starts where the menu put
      the eye, when cos(0) == 1: 30 units out along Storage, which for the
      menu's own eyes (30 units from the origin) is the eye itself. */
  lemma PredefinedStartsAtEye(s: CameraState, at: Vec3, eye: Vec3, mag: real,
                              fish: seq<Vec3>, bugs: seq<Vec3>, trig: Trig)
    requires mag > 0.0 && mag * mag == DistSq(at, eye)
    requires trig.cos(0.0) == 1.0
    ensures Tick(PreTrajectory(s, at, eye, mag), fish, bugs, trig).eye
         == Mul3(PreTrajectory(s, at, eye, mag).storage, 30.0)
    ensures at == Origin && mag == 30.0 ==> Tick(PreTrajectory(s, at, eye, mag), fish, bugs, trig).eye == eye
  {
    var p := PreTrajectory(s, at, eye, mag);
    PredefinedSlides(p, fish, bugs, trig);
    if at == Origin && mag == 30.0 {
      assert Mul3(p.storage, 30.0) == Sub3(eye, at);
    }
  }

  // ---------------------------------------------------------------------
  // Keyboard

  const Escape: char := 27 as char
  const DisplaceStep := 2.3

  /** The keys that move the camera along its view direction. */
  predicate IsMoveKey(key: char) {
    key == 'f' || key == 'F' || key == 'b' || key == 'B'
  }

  /** Unsigned pre-increment: 2^32 - 1 wraps around to 0. */
  function Increment(n: u32): (m: u32)
    ensures m == (n + 1) % 0x1_0000_0000
  {
    if n == U32Max then 0 else n + 1
  }

  datatype KeyResult = KeyResult(camera: CameraState, destroyWindow: bool)

  /** KeyboardEvent: n/N advance FollowIndex; X/Y/Z (x/y/z) shift the eye by
      +2.3 (-2.3) along that axis; f/F and b/B move one unit forward and
      back; Escape and q destroy the window. Every key except n/N also stops
      the trajectory. `mag` is the view direction's length, needed by Move. */
  function KeyboardStep(s: CameraState, key: char, mag: real): (r: KeyResult)
    requires IsMoveKey(key) ==> mag > 0.0 && mag * mag == NormSq3(ToVec3(Direction(s)))
    ensures r.destroyWindow <==> key == Escape || key == 'q'
    ensures key == 'n' || key == 'N' ==> r.camera == s.(followIndex := Increment(s.followIndex))
    ensures key != 'n' && key != 'N' ==> !r.camera.motionMode
    ensures r.camera.mode == s.mode && r.camera.up == s.up && r.camera.timer == s.timer
  {
    var c :=
      if key == 'N' || key == 'n' then s.(followIndex := Increment(s.followIndex))
      else if key == 'X' then s.(eye := s.eye.(x := s.eye.x + DisplaceStep))
      else if key == 'x' then s.(eye := s.eye.(x := s.eye.x - DisplaceStep))
      else if key == 'Y' then s.(eye := s.eye.(y := s.eye.y + DisplaceStep))
      else if key == 'y' then s.(eye := s.eye.(y := s.eye.y - DisplaceStep))
      else if key == 'Z' then s.(eye := s.eye.(z := s.eye.z + DisplaceStep))
      else if key == 'z' then s.(eye := s.eye.(z := s.eye.z - DisplaceStep))
      else if key == 'f' || key == 'F' then MoveStep(s, 1.0, mag)
      else if key == 'b' || key == 'B' then MoveStep(s, -1.0, mag)
      else s;
    KeyResult(if key == 'n' || key == 'N' then c else c.(motionMode := false), key == Escape || key == 'q')
  }

  /** The shift an axis key gives the eye: upper case along the positive
      axis, lower case along the negative one. */
  function AxisShift(key: char): (d: Vec3)
    requires key in "XxYyZz"
    ensures NormSq3(d) == DisplaceStep * DisplaceStep
  {
    match key
    case 'X' => Vec3(DisplaceStep, 0.0, 0.0)
    case 'x' => Vec3(-DisplaceStep, 0.0, 0.0)
    case 'Y' => Vec3(0.0, DisplaceStep, 0.0)
    case 'y' => Vec3(0.0, -DisplaceStep, 0.0)
    case 'Z' => Vec3(0.0, 0.0, DisplaceStep)
    case 'z' => Vec3(0.0, 0.0, -DisplaceStep)
  }

  /** Forward and back keys move eye and look-at point one unit along (f, F)
      or against (b, B) the view direction, keeping it; the axis keys shift
      only the eye, by 2.3 units along one axis; any other key only stops
      the trajectory. Nothing else changes. */
  lemma KeyMovesCamera(s: CameraState, key: char, mag: real)
    requires IsMoveKey(key) ==> mag > 0.0 && mag * mag == NormSq3(ToVec3(Direction(s)))
    ensures IsMoveKey(key) ==>
      var c := KeyboardStep(s, key, mag).camera;
      Direction(c) == Direction(s) && DistSq(s.eye, c.eye) == 1.0
      && Mul3(Sub3(c.eye, s.eye), mag) == Mul3(ToVec3(Direction(s)), if key in "fF" then 1.0 else -1.0)
      && c.(eye := s.eye, at := s.at) == s.(motionMode := false)
    ensures key in "XxYyZz" ==>
      KeyboardStep(s, key, mag).camera == s.(eye := Add3(s.eye, AxisShift(key)), motionMode := false)
      && DistSq(s.eye, KeyboardStep(s, key, mag).camera.eye) == DisplaceStep * DisplaceStep
    ensures !(key in "nNXxYyZzfFbB") ==> KeyboardStep(s, key, mag).camera == s.(motionMode := false)
  {
  }

  /** Pressing n while following, then letting a frame pass, moves on to the
      next entity, wrapping from the last back to the first. */
  lemma NextKeyCycles(s: CameraState, fish: seq<Vec3>, bugs: seq<Vec3>, trig: Trig)
    requires s.motionMode && (s.mode == FollowFish || s.mode == FollowWaterbug)
    requires var entities := if s.mode == FollowFish then fish else bugs;
      0 < |entities| < 0x1_0000_0000 && s.followIndex < |entities|
    ensures var entities := if s.mode == FollowFish then fish else bugs;
      var r := Tick(KeyboardStep(s, 'n', 0.0).camera, fish, bugs, trig);
      r.followIndex == (s.followIndex + 1) % |entities| && r.at == entities[r.followIndex]
  {
    var entities := if s.mode == FollowFish then fish else bugs;
    var c := KeyboardStep(s, 'n', 0.0).camera;
    assert c.followIndex == s.followIndex + 1;
    FollowCircles(c, fish, bugs, trig);
  }

  // ---------------------------------------------------------------------
  // Arrow keys

  /** GLUT's codes for the arrow keys. */
  const KeyLeft := 100
  const KeyUp := 101
  const KeyRight := 102
  const KeyDown := 103

  predicate IsArrowKey(key: int) {
    key == KeyLeft || key == KeyUp || key == KeyRight || key == KeyDown
  }

  /** SpecialKey: any special key switches to navigation and stops the
      trajectory; an arrow key also turns the view direction by `displace`,
      the axis-angle quaternion the handler builds for that key (10 degrees
      about the camera's right or up axis). */
  function SpecialStep(s: CameraState, key: int, displace: Vec4): (r: CameraState)
    ensures r.mode == Navigation && !r.motionMode
    ensures r.(mode := s.mode, motionMode := s.motionMode, at := s.at) == s
    ensures !IsArrowKey(key) ==> r.at == s.at
    ensures IsArrowKey(key) ==> Pure(ToVec3(Direction(r))) == Pure(ToVec3(Rotate(displace, Direction(s))))
  {
    var c := s.(motionMode := false, mode := Navigation);
    if IsArrowKey(key) then WithDirection(c, Rotate(displace, Direction(c))) else c
  }

  /** Turning by a unit quaternion keeps the view direction's length, so an
      arrow key turns the camera in place. */
  lemma ArrowKeyTurns(s: CameraState, key: int, displace: Vec4)
    requires IsArrowKey(key) && NormSq4(displace) == 1.0
    ensures Direction(SpecialStep(s, key, displace)) == Rotate(displace, Direction(s))
    ensures NormSq4(Direction(SpecialStep(s, key, displace))) == NormSq4(Direction(s))
  {
    var d := ToVec3(Direction(s));
    assert Direction(s) == Pure(d);
    RotatePreservesNorm(displace, d);
  }

  // ---------------------------------------------------------------------
  // The Camera struct

  class Camera {
    var eye: Vec3
    var at: Vec3
    var up: Vec3
    var motionMode: bool
    var mode: Trajectory
    var timer: real
    var followIndex: u32
    var storage: Vec3

    function State(): CameraState
      reads this
    {
      CameraState(eye, at, up, motionMode, mode, timer, followIndex, storage)
    }

    constructor ()
      ensures State() == InitialState
    {
      eye, at, up := Vec3(0.0, 0.0, 30.0), Origin, Vec3(0.0, 1.0, 0.0);
      motionMode, mode, timer, followIndex, storage := false, PredefinedTrajectory, 0.0, 0, Origin;
    }

    function GetDirection(): (d: Vec4)
      reads this
      ensures d.w == 0.0 && Add3(eye, ToVec3(d)) == at
    {
      Vec4(at.x - eye.x, at.y - eye.y, at.z - eye.z, 0.0)
    }

    method SetDirection(dir: Vec4)
      modifies this
      ensures State() == WithDirection(old(State()), dir)
    {
      at := Vec3(eye.x + dir.x, eye.y + dir.y, eye.z + dir.z);
    }

    method Move(dir: real, mag: real)
      requires mag > 0.0 && mag * mag == NormSq3(ToVec3(GetDirection()))
      modifies this
      ensures State() == MoveStep(old(State()), dir, mag)
    {
      var u := Normalize(ToVec3(GetDirection()), mag);
      eye := Vec3(eye.x + dir * u.x, eye.y + dir * u.y, eye.z + dir * u.z);
      at := Vec3(at.x + dir * u.x, at.y + dir * u.y, at.z + dir * u.z);
    }

    method Update(fish: seq<Vec3>, bugs: seq<Vec3>, trig: Trig)
      requires FollowReady(State(), fish, bugs)
      modifies this
      ensures State() == Tick(old(State()), fish, bugs, trig)
    {
      if motionMode {
        match mode
        case PredefinedTrajectory =>
          var quantity := 14.0 * trig.cos(timer);
          timer := trig.advance(timer);
          eye := Vec3(storage.x * 16.0 + storage.x * quantity,
                      storage.y * 16.0 + storage.y * quantity,
                      storage.z * 16.0 + storage.z * quantity);
        case CustomTrajectory =>
          var dis := Vec3(storage.x - eye.x, storage.y - eye.y, storage.z - eye.z);
          var k := if dis.x * dis.x + dis.y * dis.y + dis.z * dis.z > 1.0 then 1.0 / 300.0 else 0.0;
          eye := Vec3(eye.x + dis.x * k, eye.y + dis.y * k, eye.z + dis.z * k);
        case BirdsEyeView =>
          timer := trig.advance(timer);
          at := Origin;
          eye := Vec3(12.0 * trig.sin(timer), 12.0, 12.0 * trig.cos(timer));
        case FollowFish =>
          FollowEntity(fish, trig);
        case FollowWaterbug =>
          FollowEntity(bugs, trig);
        case Navigation =>
      }
    }

    method FollowEntity(entities: seq<Vec3>, trig: Trig)
      requires |entities| > 0
      modifies this
      ensures State() == Follow(old(State()), entities, trig)
    {
      followIndex := followIndex % |entities|;
      var where := entities[followIndex];
      timer := trig.advance(timer);
      at := where;
      eye := Vec3(at.x + 4.0 * trig.sin(timer), at.y + 4.0, at.z + 4.0 * trig.cos(timer));
    }
  }

  // ---------------------------------------------------------------------
  // The Program's camera handlers

  class Program {
    const camera: Camera

    constructor ()
      ensures fresh(camera) && camera.State() == InitialState
    {
      camera := new Camera();
    }

    method SetPreTrajectory(at: Vec3, eye: Vec3, mag: real)
      requires mag > 0.0 && mag * mag == DistSq(at, eye)
      modifies camera
      ensures camera.State() == PreTrajectory(old(camera.State()), at, eye, mag)
    {
      camera.timer := 0.0;
      camera.mode := PredefinedTrajectory;
      camera.motionMode := true;
      camera.eye := eye;
      camera.at := at;
      camera.storage := Normalize(Vec3(eye.x - at.x, eye.y - at.y, eye.z - at.z), mag);
    }

    method SetBirdsEyeViewTrajectory()
      modifies camera
      ensures camera.State() == BirdsEye(old(camera.State()))
    {
      camera.motionMode := true;
      camera.mode := BirdsEyeView;
      camera.timer := 0.0;
    }

    /** The three points are what SetCustomTrajectory reads from the console. */
    method SetCustomTrajectory(eye: Vec3, at: Vec3, goal: Vec3)
      modifies camera
      ensures camera.State() == Custom(old(camera.State()), eye, at, goal)
    {
      camera.eye := eye;
      camera.at := at;
      camera.storage := goal;
      camera.motionMode := true;
      camera.mode := CustomTrajectory;
    }

    method SetFollowFish()
      modifies camera
      ensures camera.State() == FollowMode(old(camera.State()), FollowFish)
    {
      camera.motionMode := true;
      camera.followIndex := 0;
      camera.mode := FollowFish;
    }

    method SetFollowWaterbug()
      modifies camera
      ensures camera.State() == FollowMode(old(camera.State()), FollowWaterbug)
    {
      camera.motionMode := true;
      camera.followIndex := 0;
      camera.mode := FollowWaterbug;
    }

    method KeyboardEvent(key: char, mag: real) returns (destroyWindow: bool)
      requires IsMoveKey(key) ==> mag > 0.0 && mag * mag == NormSq3(ToVec3(camera.GetDirection()))
      modifies camera
      ensures KeyResult(camera.State(), destroyWindow) == KeyboardStep(old(camera.State()), key, mag)
    {
      destroyWindow := false;
      if key == 'N' || key == 'n' {
        camera.followIndex := Increment(camera.followIndex);
      } else if key == 'X' {
        camera.eye := camera.eye.(x := camera.eye.x + DisplaceStep);
      } else if key == 'x' {
        camera.eye := camera.eye.(x := camera.eye.x - DisplaceStep);
      } else if key == 'Y' {
        camera.eye := camera.eye.(y := camera.eye.y + DisplaceStep);
      } else if key == 'y' {
        camera.eye := camera.eye.(y := camera.eye.y - DisplaceStep);
      } else if key == 'Z' {
        camera.eye := camera.eye.(z := camera.eye.z + DisplaceStep);
      } else if key == 'z' {
        camera.eye := camera.eye.(z := camera.eye.z - DisplaceStep);
      } else if key == 'f' || key == 'F' {
        camera.Move(1.0, mag);
      } else if key == 'b' || key == 'B' {
        camera.Move(-1.0, mag);
      } else if key == Escape || key == 'q' {
        destroyWindow := true;
      }
      if !(key == 'n' || key == 'N') {
        camera.motionMode := false;
      }
    }

    method SpecialKey(key: int, displace: Vec4)
      modifies camera
      ensures camera.State() == SpecialStep(old(camera.State()), key, displace)
    {
      camera.motionMode := false;
      camera.mode := Navigation;
      if !IsArrowKey(key) {
        return;
      }
      var newDir := Rotate(displace, camera.GetDirection());
      camera.SetDirection(newDir);
    }
  }
}
