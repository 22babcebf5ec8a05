// The water bug's walk/rest cycle (WaterBug::DrawFunc): it walks at speed 2
// for NextSleep + 1 frames, then rests at speed 0 for SleepTimer frames,
// drawing a fresh random length for each phase.

module WaterBugs {
  import opened QuaternionMath
  import opened Waypoints
  import opened Unsigned

  /** The counters of a water bug: SleepTimer (frames of rest left) and
      NextSleep (frames of walking left before the next rest). */
  datatype SleepState = SleepState(sleepTimer: u32, nextSleep: u32)

  /** One frame's outcome: the new counters and the speed handed to SetSpeed. */
  datatype Frame = Frame(next: SleepState, speed: real)

  const Walking := 2.0
  const Resting := 0.0

  /** Unsigned post-decrement: 0 wraps around to 2^32 - 1. */
  function Decrement(n: u32): (m: u32)
    ensures (m + 1) % 0x1_0000_0000 == n
  {
    if n == 0 then U32Max else n - 1
  }

  /** One frame of DrawFunc. A resting bug counts SleepTimer down and, when
      it reaches 0, draws NextSleep = rand() % 60. A walking bug counts
      NextSleep down and, when NextSleep was already 0, draws
      SleepTimer = 1 + rand() % 60. `rnd` is the rand() result, consumed
      only on those two transitions. */
  function SleepStep(s: SleepState, rnd: nat): (f: Frame)
    ensures f.speed == Resting <==> s.sleepTimer != 0
    ensures f.speed == Resting || f.speed == Walking
    ensures s.sleepTimer != 0 ==> f.next.sleepTimer == s.sleepTimer - 1
    ensures s.sleepTimer == 0 ==> f.next.nextSleep == Decrement(s.nextSleep)
    ensures s.sleepTimer == 0 && s.nextSleep == 0 ==> 1 <= f.next.sleepTimer <= 60
  {
    if s.sleepTimer != 0 then
      var t := s.sleepTimer - 1;
      Frame(SleepState(t, if t == 0 then rnd % 60 else s.nextSleep), Resting)
    else
      Frame(SleepState(if s.nextSleep == 0 then 1 + rnd % 60 else 0, Decrement(s.nextSleep)), Walking)
  }

  /** The counters stay within what the random draws can produce: a rest
      is at most 60 frames long, and a walking bug has fewer than 60
      frames left before it rests. */
  predicate Valid(s: SleepState) {
    s.sleepTimer <= 60 && (s.sleepTimer == 0 ==> s.nextSleep < 60)
  }

  lemma StepPreservesValid(s: SleepState, rnd: nat)
    requires Valid(s)
    ensures Valid(SleepStep(s, rnd).next)
  {
  }

  /** The counters after a run of frames, one rand() value per frame. */
  function Run(s: SleepState, rnds: seq<nat>): SleepState
    decreases |rnds|
  {
    if rnds == [] then s else Run(SleepStep(s, rnds[0]).next, rnds[1..])
  }

  /** The speeds set during a run of frames. */
  function Speeds(s: SleepState, rnds: seq<nat>): (v: seq<real>)
    ensures |v| == |rnds|
    decreases |rnds|
  {
    if rnds == [] then [] else [SleepStep(s, rnds[0]).speed] + Speeds(SleepStep(s, rnds[0]).next, rnds[1..])
  }

  lemma {:induction false} RunPreservesValid(s: SleepState, rnds: seq<nat>)
    requires Valid(s)
    ensures Valid(Run(s, rnds))
    decreases |rnds|
  {
    if rnds != [] {
      StepPreservesValid(s, rnds[0]);
      RunPreservesValid(SleepStep(s, rnds[0]).next, rnds[1..]);
    }
  }

  /** A resting bug with SleepTimer == k rests for exactly k frames, and
      wakes with NextSleep drawn by the last of them. */
  lemma {:induction false} RestLastsSleepTimer(s: SleepState, rnds: seq<nat>)
    requires s.sleepTimer != 0 && |rnds| == s.sleepTimer
    ensures forall i :: 0 <= i < |rnds| ==> Speeds(s, rnds)[i] == Resting
    ensures Run(s, rnds) == SleepState(0, rnds[|rnds| - 1] % 60)
    decreases |rnds|
  {
    var f := SleepStep(s, rnds[0]);
    if s.sleepTimer != 1 {
      RestLastsSleepTimer(f.next, rnds[1..]);
      assert rnds[1..][|rnds[1..]| - 1] == rnds[|rnds| - 1];
      assert Speeds(s, rnds) == [Resting] + Speeds(f.next, rnds[1..]);
    } else {
      assert rnds[1..] == [];
    }
  }

  /** A walking bug with NextSleep == n walks for exactly n + 1 frames; the
      last of them draws a rest of 1 to 60 frames and wraps NextSleep. */
  lemma {:induction false} WalkLastsNextSleep(s: SleepState, rnds: seq<nat>)
    requires s.sleepTimer == 0 && |rnds| == s.nextSleep + 1
    ensures forall i :: 0 <= i < |rnds| ==> Speeds(s, rnds)[i] == Walking
    ensures Run(s, rnds) == SleepState(1 + rnds[|rnds| - 1] % 60, U32Max)
    ensures 1 <= Run(s, rnds).sleepTimer <= 60
    decreases |rnds|
  {
    var f := SleepStep(s, rnds[0]);
    if s.nextSleep != 0 {
      WalkLastsNextSleep(f.next, rnds[1..]);
      assert rnds[1..][|rnds[1..]| - 1] == rnds[|rnds| - 1];
      assert Speeds(s, rnds) == [Walking] + Speeds(f.next, rnds[1..]);
    } else {
      assert rnds[1..] == [];
    }
  }

  /** The water bug: its body (an Object) plus the two counters. The leg
      animation Timer is drawn with sin and is not part of this model. */
  class WaterBug {
    const body: Object
    var sleepTimer: u32
    var nextSleep: u32

    function State(): SleepState
      reads this
    {
      SleepState(sleepTimer, nextSleep)
    }

    /** WaterBug(LowerBounds, UpperBounds): an Object, awake, with
        NextSleep = rand() % 60 drawn after the Object's own draws. */
    constructor (lower: Vec3, upper: Vec3, start: Draws, goal: Draws, steer: Steering, rnd: nat)
      requires RangesNonZero(lower, upper)
      ensures fresh(body)
      ensures body.position == RandomPoint(lower, upper, start)
      ensures body.target == RandomPoint(lower, upper, goal)
      ensures body.orientation == steer(Identity, body.position, body.target)
      ensures body.speed == Walking
      ensures State() == SleepState(0, rnd % 60) && Valid(State())
    {
      body := new Object(lower, upper, start, goal, steer);
      sleepTimer := 0;
      nextSleep := rnd % 60;
    }

    /** The counter part of DrawFunc; the drawing itself is not modelled. */
    method DrawFunc(rnd: nat)
      modifies this, body
      ensures State() == SleepStep(old(State()), rnd).next
      ensures body.speed == SleepStep(old(State()), rnd).speed
      ensures body.position == old(body.position) && body.target == old(body.target)
      ensures body.orientation == old(body.orientation)
    {
      if sleepTimer != 0 {
        sleepTimer := sleepTimer - 1;
        if sleepTimer == 0 {
          nextSleep := rnd % 60;
        }
        body.SetSpeed(Resting);
      } else {
        var wasZero := nextSleep == 0;
        nextSleep := if nextSleep == 0 then U32Max else nextSleep - 1;
        if wasZero {
          sleepTimer := 1 + rnd % 60;
        }
        body.SetSpeed(Walking);
      }
    }
  }
}
