/** The sentry camera: a sweep that swings the camera between two end angles with a pause
    at each end, and a vision check that raises OnPlayerCaught for the first candidate in
    range that lies inside the view cone and is not hidden behind an obstruction.
    Orientation composition (quaternions) is not modelled: a candidate carries the engine's
    view angle as a function of the sweep angle. */
module SecurityCameraModel {
  import opened Unity

  // ---------------------------------------------------------------------------
  // Sweep state machine
  // ---------------------------------------------------------------------------

  /** The sweep's tuning fields. */
  datatype SweepConfig = SweepConfig(sweepAngle: real, sweepSpeed: real, pauseAtEnds: real)

  /** The sweep's runtime fields: the offset angle, the direction, whether the camera is
      paused at an end, and how long it has been paused. */
  datatype Sweep = Sweep(rotation: real, dir: int, atEnd: bool, timeAtEnd: real)

  /** The field initialisers: angle 0, direction +1, sweeping, timer 0. */
  const Initial: Sweep := Sweep(0.0, 1, false, 0.0)

  /** The largest offset either way, `max` in SweepUpdate. */
  function HalfArc(c: SweepConfig): real {
    c.sweepAngle * 0.5
  }

  /** How far one sweeping frame turns the camera, signed by the direction. */
  function StepSize(c: SweepConfig, dt: real, dir: int): real {
    c.sweepSpeed * dt * dir as real
  }

  /** The camera sits at one of the two end angles, as SweepUpdate tests it. */
  predicate AtBound(c: SweepConfig, rotation: real) {
    Approximately(rotation, -HalfArc(c)) || Approximately(rotation, HalfArc(c))
  }

  /** One SweepUpdate with frame time `dt`. */
  function SweepStep(c: SweepConfig, s: Sweep, dt: real): (r: Sweep)
    // while paused the angle is frozen
    ensures s.atEnd ==> r.rotation == s.rotation
    // a pause ends once its timer reaches pauseAtEnds: timer back to 0, direction negated
    ensures s.atEnd && s.timeAtEnd + dt >= c.pauseAtEnds ==>
              !r.atEnd && r.timeAtEnd == 0.0 && r.dir == -s.dir
    // otherwise the pause goes on and the timer grows by dt
    ensures s.atEnd && s.timeAtEnd + dt < c.pauseAtEnds ==>
              r.atEnd && r.timeAtEnd == s.timeAtEnd + dt && r.dir == s.dir
    // while sweeping the angle moves by speed*dt in the current direction, clamped to the arc
    ensures !s.atEnd ==> r.rotation == Clamp(s.rotation + StepSize(c, dt, s.dir), -HalfArc(c), HalfArc(c))
    ensures !s.atEnd ==> r.dir == s.dir && r.timeAtEnd == s.timeAtEnd
    // the pause is entered exactly when the clamped angle is (approximately) at an end
    ensures !s.atEnd ==> (r.atEnd <==> AtBound(c, r.rotation))
    ensures !s.atEnd && (r.rotation == HalfArc(c) || r.rotation == -HalfArc(c)) ==> r.atEnd
    // the direction changes only when a pause ends
    ensures r.dir != s.dir ==> s.atEnd && !r.atEnd && r.dir == -s.dir
    // the angle never leaves the arc
    ensures c.sweepAngle >= 0.0 && Abs(s.rotation) <= HalfArc(c) ==> Abs(r.rotation) <= HalfArc(c)
  {
    if s.atEnd then
      var t := s.timeAtEnd + dt;
      if t >= c.pauseAtEnds then Sweep(s.rotation, -s.dir, false, 0.0)
      else Sweep(s.rotation, s.dir, true, t)
    else
      var max := HalfArc(c);
      var step := StepSize(c, dt, s.dir);
      var rot := Clamp(s.rotation + step, -max, max);
      Sweep(rot, s.dir, AtBound(c, rot), s.timeAtEnd)
  }

  /** The sweep after one SweepUpdate per entry of `dts`, in order. */
  function SweepRun(c: SweepConfig, s: Sweep, dts: seq<real>): Sweep
    decreases |dts|
  {
    if |dts| == 0 then s else SweepRun(c, SweepStep(c, s, dts[0]), dts[1..])
  }

  /** What every reachable sweep state satisfies: inside the arc, direction +1 or -1. */
  predicate SweepInvariant(c: SweepConfig, s: Sweep) {
    Abs(s.rotation) <= HalfArc(c) && (s.dir == 1 || s.dir == -1)
  }

  lemma InitialSatisfiesInvariant(c: SweepConfig)
    requires c.sweepAngle >= 0.0
    ensures SweepInvariant(c, Initial)
  {
  }

  /** Over any sequence of frames the angle stays within half the arc and the direction
      stays +1 or -1. */
  lemma {:induction false} SweepRunKeepsInvariant(c: SweepConfig, s: Sweep, dts: seq<real>)
    requires c.sweepAngle >= 0.0
    requires SweepInvariant(c, s)
    ensures SweepInvariant(c, SweepRun(c, s, dts))
    decreases |dts|
  {
    if |dts| > 0 {
      var s' := SweepStep(c, s, dts[0]);
      assert SweepInvariant(c, s');
      SweepRunKeepsInvariant(c, s', dts[1..]);
    }
  }

  /** How often the direction changed, and how often a pause ended, over a run. */
  function Flips(c: SweepConfig, s: Sweep, dts: seq<real>): nat
    decreases |dts|
  {
    if |dts| == 0 then 0
    else
      var s' := SweepStep(c, s, dts[0]);
      (if s'.dir != s.dir then 1 else 0) + Flips(c, s', dts[1..])
  }

  function PauseExits(c: SweepConfig, s: Sweep, dts: seq<real>): nat
    decreases |dts|
  {
    if |dts| == 0 then 0
    else
      var s' := SweepStep(c, s, dts[0]);
      (if s.atEnd && !s'.atEnd then 1 else 0) + PauseExits(c, s', dts[1..])
  }

  /** The direction flips exactly once per pause: over any run from a state with direction
      +1 or -1, the number of direction changes equals the number of pauses that ended. */
  lemma {:induction false} OneFlipPerPause(c: SweepConfig, s: Sweep, dts: seq<real>)
    requires s.dir == 1 || s.dir == -1
    ensures Flips(c, s, dts) == PauseExits(c, s, dts)
    decreases |dts|
  {
    if |dts| > 0 {
      var s' := SweepStep(c, s, dts[0]);
      assert s'.dir == 1 || s'.dir == -1;
      OneFlipPerPause(c, s', dts[1..]);
    }
  }

  /** The default tuning: a 60-degree arc at 30 degrees per second, 0.35 s pauses. */
  const Default: SweepConfig := SweepConfig(60.0, 30.0, 0.35)

  /** From the start, one second of sweeping brings the camera to +30 degrees, where it
      pauses; after 0.35 s more it heads back with direction -1. */
  lemma DefaultSweepReachesEndAfterOneSecond()
    ensures SweepRun(Default, Initial, [1.0]) == Sweep(30.0, 1, true, 0.0)
    ensures SweepRun(Default, Initial, [0.25, 0.25, 0.25, 0.25]) == Sweep(30.0, 1, true, 0.0)
    ensures SweepRun(Default, Initial, [0.25, 0.25, 0.25]).rotation == 22.5
    ensures !SweepRun(Default, Initial, [0.25, 0.25, 0.25]).atEnd
    ensures SweepRun(Default, Initial, [1.0, 0.2]) == Sweep(30.0, 1, true, 0.2)
    ensures SweepRun(Default, Initial, [1.0, 0.2, 0.15]) == Sweep(30.0, -1, false, 0.0)
  {
    var c := Default;
    var s1 := SweepStep(c, Initial, 0.25);
    assert s1 == Sweep(7.5, 1, false, 0.0);
    var s2 := SweepStep(c, s1, 0.25);
    assert s2 == Sweep(15.0, 1, false, 0.0);
    var s3 := SweepStep(c, s2, 0.25);
    assert s3 == Sweep(22.5, 1, false, 0.0);
    assert SweepStep(c, s3, 0.25) == Sweep(30.0, 1, true, 0.0);
    var e := SweepStep(c, Initial, 1.0);
    assert e == Sweep(30.0, 1, true, 0.0);
    assert SweepStep(c, e, 0.2) == Sweep(30.0, 1, true, 0.2);
  }

  // ---------------------------------------------------------------------------
  // Vision
  // ---------------------------------------------------------------------------

  /** One collider returned by the overlap query around the head: `angleFrom(r)` is the
      engine's angle between the head's forward direction, with the camera at sweep offset
      `r`, and the direction to the collider; `obstructed` is whether the ray from the head
      towards it, over its distance, hits obstruction geometry. */
  datatype Candidate = Candidate(angleFrom: real -> real, obstructed: bool)

  /** A candidate is caught when it is inside the cone (boundary included) and in sight:
      the two tests of Assets/Scripts/SecurityCamera.cs:81-83. */
  predicate Spotted(c: Candidate, rotation: real, viewHalfAngle: real) {
    c.angleFrom(rotation) <= viewHalfAngle && !c.obstructed
  }

  /** The first spotted candidate, if any; the scan stops there. */
  function FirstSpotted(hits: seq<Candidate>, rotation: real, viewHalfAngle: real): (r: Option<nat>)
    ensures r.Some? ==> r.value < |hits| && Spotted(hits[r.value], rotation, viewHalfAngle)
    ensures r.Some? ==> forall j :: 0 <= j < r.value ==> !Spotted(hits[j], rotation, viewHalfAngle)
    ensures r.None? <==> forall j :: 0 <= j < |hits| ==> !Spotted(hits[j], rotation, viewHalfAngle)
    decreases |hits|
  {
    if |hits| == 0 then None
    else if Spotted(hits[0], rotation, viewHalfAngle) then Some(0)
    else
      match FirstSpotted(hits[1..], rotation, viewHalfAngle)
      case None => None
      case Some(k) => Some(k + 1)
  }

  /** A boundary candidate (angle exactly viewHalfAngle) in sight is caught; one a little
      further out is not. */
  lemma ConeBoundaryIsInclusive(half: real, eps: real)
    requires eps > 0.0
    ensures Spotted(Candidate(_ => half, false), 0.0, half)
    ensures !Spotted(Candidate(_ => half + eps, false), 0.0, half)
    ensures !Spotted(Candidate(_ => half, true), 0.0, half)
  {
  }

  // ---------------------------------------------------------------------------
  // The component
  // ---------------------------------------------------------------------------

  class SecurityCamera {
    /** Identity of the camera's own transform (the base). */
    const baseTransform: nat
    /** The tilted head; unassigned until Awake falls back to the base. */
    var head: Option<nat>

    var sweepAngle: real
    var sweepSpeed: real
    var pauseAtEnds: real
    var viewDistance: real
    var viewHalfAngle: real

    var timeAtEnd: real
    var dir: int
    var atEnd: bool
    var currentRotation: real

    /** How many times OnPlayerCaught has been invoked. */
    var caughtEvents: nat

    function Config(): SweepConfig
      reads this
    {
      SweepConfig(sweepAngle, sweepSpeed, pauseAtEnds)
    }

    function State(): Sweep
      reads this
    {
      Sweep(currentRotation, dir, atEnd, timeAtEnd)
    }

    /** The component as the inspector leaves it, with the field initialisers. */
    constructor (baseTransform: nat, head: Option<nat>, sweepAngle: real, sweepSpeed: real,
                 pauseAtEnds: real, viewDistance: real, viewHalfAngle: real)
      ensures this.baseTransform == baseTransform && this.head == head
      ensures Config() == SweepConfig(sweepAngle, sweepSpeed, pauseAtEnds)
      ensures this.viewDistance == viewDistance && this.viewHalfAngle == viewHalfAngle
      ensures State() == Initial
      ensures caughtEvents == 0
    {
      this.baseTransform := baseTransform;
      this.head := head;
      this.sweepAngle := sweepAngle;
      this.sweepSpeed := sweepSpeed;
      this.pauseAtEnds := pauseAtEnds;
      this.viewDistance := viewDistance;
      this.viewHalfAngle := viewHalfAngle;
      timeAtEnd := 0.0;
      dir := 1;
      atEnd := false;
      currentRotation := 0.0;
      caughtEvents := 0;
    }

    /** An unassigned head defaults to the camera's own transform. */
    method Awake()
      modifies this`head
      ensures head == if old(head).None? then Some(baseTransform) else old(head)
    {
      if head.None? {
        head := Some(baseTransform);
      }
    }

    method SweepUpdate(dt: real)
      modifies this`timeAtEnd, this`atEnd, this`dir, this`currentRotation
      ensures State() == SweepStep(Config(), old(State()), dt)
    {
      ghost var c, s := Config(), State();
      if atEnd {
        timeAtEnd := timeAtEnd + dt;
        if timeAtEnd >= pauseAtEnds {
          timeAtEnd := 0.0;
          atEnd := false;
          dir := dir * -1;
        }
        return;
      }
      var max := sweepAngle * 0.5;
      var step := sweepSpeed * dt * dir as real;
      currentRotation := Clamp(currentRotation + step, -max, max);
      if Approximately(currentRotation, -max) || Approximately(currentRotation, max) {
        atEnd := true;
      }
      assert max == HalfArc(c) && step == StepSize(c, dt, s.dir);
    }

    /** Scans the overlap hits in order and invokes OnPlayerCaught once, for the first
        spotted candidate, if there is one. */
    method VisionUpdate(hits: seq<Candidate>)
      modifies this`caughtEvents
      ensures caughtEvents == old(caughtEvents) +
                (if FirstSpotted(hits, currentRotation, viewHalfAngle).Some? then 1 else 0)
    {
      for i := 0 to |hits|
        invariant caughtEvents == old(caughtEvents)
        invariant forall j :: 0 <= j < i ==> !Spotted(hits[j], currentRotation, viewHalfAngle)
      {
        if hits[i].angleFrom(currentRotation) <= viewHalfAngle {
          if !hits[i].obstructed {
            caughtEvents := caughtEvents + 1;
            break;
          }
        }
      }
    }

    /** A frame: the sweep first, then vision with the post-sweep angle. */
    method Update(dt: real, hits: seq<Candidate>)
      modifies this`timeAtEnd, this`atEnd, this`dir, this`currentRotation, this`caughtEvents
      ensures State() == SweepStep(Config(), old(State()), dt)
      ensures caughtEvents == old(caughtEvents) +
                (if FirstSpotted(hits, SweepStep(Config(), old(State()), dt).rotation,
                                 viewHalfAngle).Some? then 1 else 0)
    {
      SweepUpdate(dt);
      VisionUpdate(hits);
    }
  }
}
