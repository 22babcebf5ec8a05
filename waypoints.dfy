// Waypoint sampling and the wandering movement shared by every animal and
// particle in the terrarium (the `Object` base class).

module Waypoints {
  import opened QuaternionMath

  /** The terrarium box: the Board's LowerBounds, UpperBounds and the
      UpperBounds_Floor used for water bugs, which keeps them on the seabed. */
  const LowerBounds := Vec3(-20.0, -20.0, -20.0)
  const UpperBounds := Vec3(20.0, 20.0, 20.0)
  const UpperBoundsFloor := Vec3(20.0, -19.0, 20.0)

  function Abs(n: int): nat {
    if n < 0 then -n else n
  }

  /** C's conversion of a float to int: the fraction is dropped, rounding
      toward zero. */
  function TruncToInt(d: real): (n: int)
    ensures 0.0 <= d ==> 0 <= n && n as real <= d < n as real + 1.0
    ensures d < 0.0 ==> n <= 0 && n as real - 1.0 < d <= n as real
  {
    if d >= 0.0 then d.Floor else -((-d).Floor)
  }

  /** C's `%` for a non-negative dividend (rand() is never negative): the
      remainder has the dividend's sign, so it is the dividend modulo |b|. */
  function CRem(a: nat, b: int): (r: int)
    requires b != 0
    ensures 0 <= r < Abs(b) && r <= a
    ensures exists q: nat :: a == Multiple(q, Abs(b)) + r
  {
    var n := Abs(b);
    var q := a / n;
    assert a == q * n + a % n;
    assert a == Multiple(q, n) + a % n;
    a % n
  }

  /** q whole copies of n. */
  function Multiple(q: nat, n: nat): nat {
    q * n
  }

  /** The three rand() results Random_Point consumes, in call order. */
  datatype Draws = Draws(x: nat, y: nat, z: nat)

  /** Random_Point needs every axis range to truncate to a non-zero int,
      otherwise the `%` divides by zero. */
  predicate RangesNonZero(lower: Vec3, upper: Vec3) {
    TruncToInt(upper.x - lower.x) != 0 &&
    TruncToInt(upper.y - lower.y) != 0 &&
    TruncToInt(upper.z - lower.z) != 0
  }

  /** One coordinate of Random_Point: lower + (rand() % (int)(upper - lower) + 1).
      The offset is a whole number between 1 and the truncated range, so
      with a range of at least 1 the coordinate lies in (lower, upper]. */
  function SampleAxis(lower: real, upper: real, rnd: nat): (c: real)
    requires TruncToInt(upper - lower) != 0
    ensures var k := (c - lower).Floor;
      c - lower == k as real && 1 <= k <= Abs(TruncToInt(upper - lower))
    ensures 1 <= TruncToInt(upper - lower) ==> lower < c <= upper
  {
    var n := TruncToInt(upper - lower);
    var k := CRem(rnd, n) + 1;
    assert 1 <= k <= Abs(n);
    var c := lower + k as real;
    assert c - lower == k as real;
    assert (k as real).Floor == k;
    assert 1 <= n ==> n as real <= upper - lower;
    c
  }

  /** Random_Point: with every range at least one unit wide, the waypoint
      lies in the box (upper bound included). */
  function RandomPoint(lower: Vec3, upper: Vec3, r: Draws): (p: Vec3)
    requires RangesNonZero(lower, upper)
    ensures RangesAtLeastOne(lower, upper) ==> InBox(p, lower, upper)
  {
    Vec3(SampleAxis(lower.x, upper.x, r.x),
         SampleAxis(lower.y, upper.y, r.y),
         SampleAxis(lower.z, upper.z, r.z))
  }

  /** Every axis range truncates to at least one whole unit. */
  predicate RangesAtLeastOne(lower: Vec3, upper: Vec3) {
    1 <= TruncToInt(upper.x - lower.x) &&
    1 <= TruncToInt(upper.y - lower.y) &&
    1 <= TruncToInt(upper.z - lower.z)
  }

  /** A point lies in the half-open box (lower, upper] on every axis. */
  predicate InBox(p: Vec3, lower: Vec3, upper: Vec3) {
    lower.x < p.x <= upper.x && lower.y < p.y <= upper.y && lower.z < p.z <= upper.z
  }

  /** The guard of Random_Point fails exactly for an axis shorter than one
      unit in either direction. */
  lemma TruncZeroIff(d: real)
    ensures TruncToInt(d) == 0 <==> -1.0 < d < 1.0
  {
    if d >= 0.0 {
      assert TruncToInt(d) == 0 <== d < 1.0 by {
        if d < 1.0 {
          assert d.Floor <= 0;
        }
      }
    } else {
      if -1.0 < d {
        assert (-d).Floor <= 0;
      }
    }
  }

  /** Fish and particles sample the whole tank. */
  lemma TankPointsInTank(r: Draws)
    ensures RangesNonZero(LowerBounds, UpperBounds)
    ensures InBox(RandomPoint(LowerBounds, UpperBounds, r), LowerBounds, UpperBounds)
  {
    assert TruncToInt(40.0) == 40;
  }

  /** Water bugs sample with the floor bound, whose y range is exactly one
      unit: every waypoint they pick has y == -19, one unit above the
      tank's floor. */
  lemma FloorPointsOnFloor(r: Draws)
    ensures RangesNonZero(LowerBounds, UpperBoundsFloor)
    ensures RandomPoint(LowerBounds, UpperBoundsFloor, r).y == -19.0
  {
    assert TruncToInt(1.0) == 1;
  }

  /** The resample rule of Object::Update: pick a new waypoint once within
      one unit of the current one (compared as squared distances). */
  function Retarget(position: Vec3, target: Vec3, lower: Vec3, upper: Vec3, r: Draws): (t: Vec3)
    requires DistSq(position, target) <= 1.0 ==> RangesNonZero(lower, upper)
    ensures 1.0 < DistSq(position, target) ==> t == target
    ensures DistSq(position, target) <= 1.0 ==> t == RandomPoint(lower, upper, r)
    ensures RangesAtLeastOne(lower, upper) && InBox(target, lower, upper) ==> InBox(t, lower, upper)
  {
    if DistSq(position, target) <= 1.0 then RandomPoint(lower, upper, r) else target
  }

  /** The step Object::Update takes along the heading: the forward axis
      (0,0,1) turned by the orientation, scaled to Speed / 60 per frame. */
  function Displacement(orientation: Vec4, speed: real): (d: Vec3)
    requires NormSq4(orientation) == 1.0
    ensures NormSq3(d) == (speed / 60.0) * (speed / 60.0)
    ensures speed == 0.0 ==> d == Origin
    ensures Dot3(d, ToVec3(Rotate(orientation, Forward))) == speed / 60.0
  {
    var heading := Rotate(orientation, Forward);
    HeadingIsUnit(orientation);
    var step := Scale(heading, speed / 60.0, 1.0);
    assert step.w == 0.0;
    ToVec3(step)
  }

  /** The turned forward axis is a unit pure quaternion. */
  lemma HeadingIsUnit(q: Vec4)
    requires NormSq4(q) == 1.0
    ensures Rotate(q, Forward).w == 0.0
    ensures NormSq4(Rotate(q, Forward)) == 1.0
  {
    assert Forward == Pure(Vec3(0.0, 0.0, 1.0));
    RotatePreservesNorm(q, Vec3(0.0, 0.0, 1.0));
  }

  /** Update_Direction (slerping toward the waypoint) is transcendental; it
      enters the model as a function from the orientation, position and
      waypoint to the new orientation. */
  type Steering = (Vec4, Vec3, Vec3) -> Vec4

  /** The moving part of every animal and particle: Object's Orientation,
      Position, Position_Target and Speed. */
  class Object {
    var orientation: Vec4
    var position: Vec3
    var target: Vec3
    var speed: real

    /** Object(LowerBounds, UpperBounds): a random position, a random
        waypoint, speed 2, then one steering step from the identity
        orientation. */
    constructor (lower: Vec3, upper: Vec3, start: Draws, goal: Draws, steer: Steering)
      requires RangesNonZero(lower, upper)
      ensures RangesAtLeastOne(lower, upper) ==> InBox(position, lower, upper) && InBox(target, lower, upper)
      ensures position == RandomPoint(lower, upper, start)
      ensures target == RandomPoint(lower, upper, goal)
      ensures orientation == steer(Identity, position, target)
      ensures speed == 2.0
    {
      var p, t := RandomPoint(lower, upper, start), RandomPoint(lower, upper, goal);
      position, target := p, t;
      speed := 2.0;
      orientation := steer(Identity, p, t);
    }

    method SetSpeed(s: real)
      modifies this
      ensures speed == s
      ensures orientation == old(orientation) && position == old(position) && target == old(target)
    {
      speed := s;
    }

    /** Object::Update: resample the waypoint when close to it, steer, then
        move one frame along the new heading. */
    method Update(lower: Vec3, upper: Vec3, r: Draws, steer: Steering)
      requires DistSq(position, target) <= 1.0 ==> RangesNonZero(lower, upper)
      requires NormSq4(steer(orientation, position, Retarget(position, target, lower, upper, r))) == 1.0
      modifies this
      ensures target == Retarget(old(position), old(target), lower, upper, r)
      ensures RangesAtLeastOne(lower, upper) && old(InBox(target, lower, upper)) ==> InBox(target, lower, upper)
      ensures orientation == steer(old(orientation), old(position), target)
      ensures position == Add3(old(position), Displacement(orientation, speed))
      ensures speed == old(speed)
    {
      if DistSq(position, target) <= 1.0 {
        target := RandomPoint(lower, upper, r);
      }
      orientation := steer(orientation, position, target);
      var displace := Rotate(orientation, Forward);
      HeadingIsUnit(orientation);
      displace := Scale(displace, speed / 60.0, 1.0);
      position := Vec3(position.x + displace.x, position.y + displace.y, position.z + displace.z);
    }
  }
}
