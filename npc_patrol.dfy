/** The patrolling NPC: it walks to the current waypoint, waits there, and then moves on
    to the next one, either bouncing back and forth along the list or looping round it.
    Walking, turning and the animator are not modelled; the engine's horizontal distance
    to the current waypoint and its grounded flag are inputs. */
module NPCPatrolModel {
  import opened Unity

  /** The path fields: how many waypoints there are and how they are followed. */
  datatype Route = Route(count: nat, pingPong: bool, arriveDistance: real, waitAtPoint: real,
                         gravity: real)

  /** The runtime fields. */
  datatype Patrol = Patrol(index: int, dir: int, waitTimer: real, verticalVel: real)

  /** The field initialisers. */
  const Start: Patrol := Patrol(0, 1, 0.0, 0.0)

  /** The vertical velocity after this frame's gravity: a grounded NPC falling has its
      fall reset to -2 first. */
  function Fall(rt: Route, verticalVel: real, grounded: bool, dt: real): real {
    (if grounded && verticalVel < 0.0 then -2.0 else verticalVel) + rt.gravity * dt
  }

  /** The waypoint after the current one, and the direction, once the NPC has arrived. */
  function Advance(rt: Route, index: int, dir: int): (r: (int, int))
    requires rt.count > 0
    // looping wraps round and stays on the path
    ensures !rt.pingPong && rt.count > 0 && 0 <= index ==> 0 <= r.0 < rt.count
    ensures !rt.pingPong ==> r.1 == dir
    // ping-pong turns round at the two ends and keeps its direction in between
    ensures rt.pingPong && index == 0 ==> r == (1, 1)
    ensures rt.pingPong && index != 0 && index == rt.count - 1 ==> r == (index - 1, -1)
    ensures rt.pingPong && index != 0 && index != rt.count - 1 ==> r == (index + dir, dir)
  {
    if rt.pingPong then
      var d := if index == 0 then 1 else if index == rt.count - 1 then -1 else dir;
      (index + d, d)
    else
      (Remainder(index + 1, rt.count), dir)
  }

  /** One Update with frame time `dt`, grounded flag `grounded` and horizontal distance
      `dist` from the NPC to the current waypoint. */
  function PatrolStep(rt: Route, s: Patrol, dt: real, grounded: bool, dist: real): (r: Patrol)
    // with no waypoints nothing happens
    ensures rt.count == 0 ==> r == s
    // waiting: the timer runs down, the waypoint and direction stay
    ensures rt.count > 0 && s.waitTimer > 0.0 ==>
              r == Patrol(s.index, s.dir, s.waitTimer - dt, Fall(rt, s.verticalVel, grounded, dt))
    // walking but not there yet: the waypoint, direction and timer stay
    ensures rt.count > 0 && s.waitTimer <= 0.0 && dist > rt.arriveDistance ==>
              r == s.(verticalVel := Fall(rt, s.verticalVel, grounded, dt))
    // arrived: wait, then head for the next waypoint
    ensures rt.count > 0 && s.waitTimer <= 0.0 && dist <= rt.arriveDistance ==>
              r.waitTimer == rt.waitAtPoint && (r.index, r.dir) == Advance(rt, s.index, s.dir) &&
              r.verticalVel == Fall(rt, s.verticalVel, grounded, dt)
  {
    if rt.count == 0 then s
    else
      var vv := Fall(rt, s.verticalVel, grounded, dt);
      if s.waitTimer > 0.0 then Patrol(s.index, s.dir, s.waitTimer - dt, vv)
      else if dist > rt.arriveDistance then s.(verticalVel := vv)
      else
        var (i, d) := Advance(rt, s.index, s.dir);
        Patrol(i, d, rt.waitAtPoint, vv)
  }

  /** The waypoint index names a waypoint and the direction is +1 or -1. */
  predicate OnPath(rt: Route, s: Patrol) {
    rt.count == 0 || (0 <= s.index < rt.count && (s.dir == 1 || s.dir == -1))
  }

  /** With two or more waypoints in ping-pong mode, or any number when looping, every
      Update keeps the index on the path. */
  lemma StepStaysOnPath(rt: Route, s: Patrol, dt: real, grounded: bool, dist: real)
    requires rt.pingPong ==> rt.count != 1
    requires OnPath(rt, s)
    ensures OnPath(rt, PatrolStep(rt, s, dt, grounded, dist))
  {
  }

  /** One frame's engine inputs. */
  datatype Frame = Frame(dt: real, grounded: bool, dist: real)

  function PatrolRun(rt: Route, s: Patrol, frames: seq<Frame>): Patrol
    decreases |frames|
  {
    if |frames| == 0 then s
    else PatrolRun(rt, PatrolStep(rt, s, frames[0].dt, frames[0].grounded, frames[0].dist), frames[1..])
  }

  lemma {:induction false} RunStaysOnPath(rt: Route, s: Patrol, frames: seq<Frame>)
    requires rt.pingPong ==> rt.count != 1
    requires OnPath(rt, s)
    ensures OnPath(rt, PatrolRun(rt, s, frames))
    decreases |frames|
  {
    if |frames| > 0 {
      var f := frames[0];
      StepStaysOnPath(rt, s, f.dt, f.grounded, f.dist);
      RunStaysOnPath(rt, PatrolStep(rt, s, f.dt, f.grounded, f.dist), frames[1..]);
    }
  }

  /** With a single waypoint in ping-pong mode the first arrival moves the index to 1,
      past the end of the list, so the next walking frame would index out of range. */
  lemma SinglePointPingPongLeavesPath(rt: Route, dt: real, grounded: bool, dist: real)
    requires rt.count == 1 && rt.pingPong && dist <= rt.arriveDistance
    ensures PatrolStep(rt, Start, dt, grounded, dist).index == 1
    ensures !OnPath(rt, PatrolStep(rt, Start, dt, grounded, dist))
  {
  }

  class NPCPatrol {
    /** The number of waypoints assigned (0 models an unassigned or empty array). */
    const pointCount: nat
    var pingPong: bool
    var arriveDistance: real
    var waitAtPoint: real
    var gravity: real

    var index: int
    var dir: int
    var waitTimer: real
    var verticalVel: real

    function Path(): Route
      reads this
    {
      Route(pointCount, pingPong, arriveDistance, waitAtPoint, gravity)
    }

    function State(): Patrol
      reads this
    {
      Patrol(index, dir, waitTimer, verticalVel)
    }

    constructor (pointCount: nat, pingPong: bool, arriveDistance: real, waitAtPoint: real,
                 gravity: real)
      ensures Path() == Route(pointCount, pingPong, arriveDistance, waitAtPoint, gravity)
      ensures State() == Start
    {
      this.pointCount := pointCount;
      this.pingPong := pingPong;
      this.arriveDistance := arriveDistance;
      this.waitAtPoint := waitAtPoint;
      this.gravity := gravity;
      index, dir, waitTimer, verticalVel := 0, 1, 0.0, 0.0;
    }

    /** A frame. Walking reads `points[index]`, so the index must name a waypoint; the
        path asks for two or more points in ping-pong mode. */
    method Update(dt: real, grounded: bool, dist: real)
      requires OnPath(Path(), State())
      requires pingPong ==> pointCount != 1
      modifies this`index, this`dir, this`waitTimer, this`verticalVel
      ensures State() == PatrolStep(Path(), old(State()), dt, grounded, dist)
      ensures OnPath(Path(), State())
    {
      if pointCount == 0 {
        return;
      }
      if grounded && verticalVel < 0.0 {
        verticalVel := -2.0;
      }
      verticalVel := verticalVel + gravity * dt;
      if waitTimer > 0.0 {
        waitTimer := waitTimer - dt;
        return;
      }
      if dist <= arriveDistance {
        waitTimer := waitAtPoint;
        if pingPong {
          if index == 0 {
            dir := 1;
          } else if index == pointCount - 1 {
            dir := -1;
          }
          index := index + dir;
        } else {
          index := Remainder(index + 1, pointCount);
        }
      }
      StepStaysOnPath(Path(), old(State()), dt, grounded, dist);
    }
  }
}
