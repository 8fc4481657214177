/** What one motion thread shares with the rest of its node: the `should_stop` flag, the robot
    services and `rclpy.ok()`. Other threads act between any two atomic steps of the motion thread;
    what they do is an arbitrary function of time, so a contract that holds for every `Env` holds
    for every schedule, every stop request and every service outcome. */
module MotionWorld {

  /** How a blocking service call ends. `NoResult` is a timeout or a service error. */
  datatype Reply = Answered(success: bool) | NoResult

  predicate Good(reply: Reply) {
    reply.Answered? && reply.success
  }

  /** `stops(t)`: another thread raises `should_stop` at time `t`. `rclpy.ok()` holds before `shutdownAt`. */
  datatype Env = Env(stops: nat -> bool, replies: nat -> Reply, shutdownAt: nat)

  datatype Waypoint = Waypoint(x: real, y: real, z: real, a: real, b: real, c: real)

  datatype Joints = HomePos | PreStartPos

  /** The requests of the motion nodes: joint move, line move with blending radius, spline through
      all points, and stop. */
  datatype Cmd =
    | MoveJ(target: Joints, vel: real, acc: real)
    | MoveL(to: Waypoint, radius: real)
    | MoveSpline(points: seq<Waypoint>)
    | MoveStop

  /** A finished service call; `late` when `should_stop` was already up when it was issued. */
  datatype Call = Call(cmd: Cmd, good: bool, late: bool)

  /** If every answer is good so is every call of the trace, and if none is none is. */
  ghost predicate Faithful(env: Env, trace: seq<Call>) {
    && ((forall t: nat :: env.replies(t) == Answered(true)) ==> forall i | 0 <= i < |trace| :: trace[i].good)
    && ((forall t: nat :: env.replies(t) != Answered(true)) ==> forall i | 0 <= i < |trace| :: !trace[i].good)
  }

  class World {
    const env: Env
    var clock: nat
    var shouldStop: bool
    var trace: seq<Call> // the requests issued, with their outcomes
    ghost var resetAt: nat // when should_stop was last cleared

    ghost predicate StopIn(from: nat, to: nat) {
      exists t: nat :: from <= t < to && env.stops(t)
    }

    ghost predicate Valid()
      reads this
    {
      resetAt <= clock && (shouldStop <==> StopIn(resetAt, clock)) && Faithful(env, trace)
    }

    constructor (env: Env)
      ensures Valid() && this.env == env && clock == 0 && trace == [] && !shouldStop
    {
      this.env, clock, shouldStop, trace, resetAt := env, 0, false, [], 0;
    }

    /** A point where other threads may run. */
    method Tick()
      requires Valid()
      modifies this`clock, this`shouldStop
      ensures Valid() && clock == old(clock) + 1
      ensures shouldStop == (old(shouldStop) || env.stops(old(clock)))
    {
      if env.stops(clock) { shouldStop := true; }
      clock := clock + 1;
      assert StopIn(resetAt, clock) <==> StopIn(resetAt, clock - 1) || env.stops(clock - 1);
    }

    method ClearStop()
      requires Valid()
      modifies this`shouldStop, this`resetAt
      ensures Valid() && !shouldStop && resetAt == clock
    {
      shouldStop, resetAt := false, clock;
    }

    /** Reads `should_stop`. */
    method ReadStop() returns (stop: bool)
      requires Valid()
      modifies this`clock, this`shouldStop
      ensures Valid() && clock == old(clock) + 1
      ensures stop == shouldStop == (old(shouldStop) || env.stops(old(clock)))
    {
      Tick();
      stop := shouldStop;
    }

    /** `call_service`: other threads may run before the request is issued, while it is served and
        before its result is used. */
    method Send(cmd: Cmd) returns (call: Call)
      requires Valid()
      modifies this`clock, this`shouldStop, this`trace
      ensures Valid() && clock == old(clock) + 3 && trace == old(trace) + [call]
      ensures call == Call(cmd, Good(env.replies(old(clock) + 2)), old(shouldStop) || env.stops(old(clock)))
      ensures call.late ==> shouldStop
    {
      Tick();
      var late := shouldStop;
      Tick();
      var reply := env.replies(clock);
      Tick();
      call := Call(cmd, Good(reply), late);
      trace := trace + [call];
    }
  }

  // ---------- commands issued after a stop request ----------

  /** A motion command started late. Stopping is not a motion. */
  predicate IsLate(c: Call) {
    c.late && !c.cmd.MoveStop?
  }

  /** How many motion commands were started late. */
  function LateMotions(calls: seq<Call>): nat {
    if calls == [] then 0
    else LateMotions(calls[..|calls| - 1]) + (if IsLate(calls[|calls| - 1]) then 1 else 0)
  }

  lemma LateOne(c: Call)
    ensures LateMotions([c]) == if IsLate(c) then 1 else 0
  {
    LateSnoc([], c);
  }

  lemma LateSnoc(calls: seq<Call>, c: Call)
    ensures LateMotions(calls + [c]) == LateMotions(calls) + if IsLate(c) then 1 else 0
  {
    assert (calls + [c])[..|calls|] == calls;
  }

  lemma Assoc<T>(a: seq<T>, b: seq<T>, c: seq<T>)
    ensures a + b + c == a + (b + c)
  {
  }

  lemma {:induction false} LateConcat(a: seq<Call>, b: seq<Call>)
    ensures LateMotions(a + b) == LateMotions(a) + LateMotions(b)
    decreases |b|
  {
    if b == [] {
      assert a + b == a;
    } else {
      var front := b[..|b| - 1];
      assert (a + b)[..|a + b| - 1] == a + front;
      LateConcat(a, front);
    }
  }

  /** How many motion commands were started at all. */
  function Motions(calls: seq<Call>): nat {
    if calls == [] then 0
    else Motions(calls[..|calls| - 1]) + (if calls[|calls| - 1].cmd.MoveStop? then 0 else 1)
  }

  lemma {:induction false} MotionsGrow(a: seq<Call>, b: seq<Call>)
    ensures Motions(a) <= Motions(a + b) <= Motions(a) + |b| && Motions(a) <= |a|
    ensures (forall i | 0 <= i < |a| :: !a[i].cmd.MoveStop?) ==> Motions(a) == |a|
    decreases |a| + |b|
  {
    if b != [] {
      var front := b[..|b| - 1];
      assert (a + b)[..|a + b| - 1] == a + front;
      MotionsGrow(a, front);
    } else {
      assert a + b == a;
      if a != [] { MotionsGrow(a[..|a| - 1], []); }
    }
  }

  function Flatten(sweeps: seq<seq<Call>>): seq<Call> {
    if sweeps == [] then [] else Flatten(sweeps[..|sweeps| - 1]) + sweeps[|sweeps| - 1]
  }

  lemma FlattenSnoc(sweeps: seq<seq<Call>>, s: seq<Call>)
    ensures Flatten(sweeps + [s]) == Flatten(sweeps) + s
  {
    assert (sweeps + [s])[..|sweeps|] == sweeps;
  }

  lemma {:induction false} FlattenHas(sweeps: seq<seq<Call>>, k: nat, c: Call)
    requires k < |sweeps| && c in sweeps[k]
    ensures c in Flatten(sweeps)
    decreases |sweeps|
  {
    if k < |sweeps| - 1 { FlattenHas(sweeps[..|sweeps| - 1], k, c); }
  }

  /** Every call of a run that the trace ends with is as good as the answers are. */
  lemma NewCallsAreFaithful(env: Env, before: seq<Call>, calls: seq<Call>)
    requires Faithful(env, before + calls)
    ensures (forall t: nat :: env.replies(t) == Answered(true)) ==> forall c | c in calls :: c.good
    ensures (forall t: nat :: env.replies(t) != Answered(true)) ==> forall c | c in calls :: !c.good
  {
    forall c | c in calls ensures exists i :: 0 <= i < |before + calls| && (before + calls)[i] == c {
      var i :| 0 <= i < |calls| && calls[i] == c;
      assert (before + calls)[|before| + i] == c;
    }
  }

  // ---------- waypoint paths ----------

  function Reverse<T>(s: seq<T>): (r: seq<T>)
    ensures |r| == |s| && forall i | 0 <= i < |s| :: r[i] == s[|s| - 1 - i]
  {
    if s == [] then [] else Reverse(s[1..]) + [s[0]]
  }

  lemma {:induction false} ReverseTwice<T>(s: seq<T>)
    ensures Reverse(Reverse(s)) == s
  {
  }

  /** The path of sweep `k`, counted from 0: out along the waypoints, then back, and so on. */
  function PathOf<T>(wps: seq<T>, k: nat): (path: seq<T>)
    ensures |path| == |wps|
  {
    if k % 2 == 0 then wps else Reverse(wps)
  }

  lemma {:induction false} NextPath<T>(wps: seq<T>, k: nat)
    ensures PathOf(wps, 0) == wps && Reverse(PathOf(wps, k)) == PathOf(wps, k + 1)
  {
    if k % 2 == 0 {
      assert (k + 1) % 2 == 1;
    } else {
      assert (k + 1) % 2 == 0;
      ReverseTwice(wps);
    }
  }

  /** Every path starts where the one before it ends. */
  lemma {:induction false} PathsJoin<T>(wps: seq<T>, k: nat)
    requires wps != [] && k > 0
    ensures PathOf(wps, k)[0] == PathOf(wps, k - 1)[|wps| - 1]
  {
  }
}
