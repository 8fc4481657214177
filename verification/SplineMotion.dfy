/** spline_motion.py: one cycle of `execute_cycle` under every behaviour of the other threads. */
module SplineMotion {
  import opened MotionWorld

  const HOME := MoveJ(HomePos, 120.0, 80.0)
  const PRE_START := MoveJ(PreStartPos, 120.0, 80.0)

  /** The commands of an undisturbed cycle. */
  function Plan(forward: seq<Waypoint>): seq<Cmd> {
    [HOME, PRE_START, MoveSpline(forward), MoveSpline(Reverse(forward)), HOME]
  }

  /** The calls follow the plan. Each but the last succeeded, and a cycle falls short of the plan
      only because its last call failed or a stop was requested. */
  ghost predicate FollowsPlan(calls: seq<Call>, plan: seq<Cmd>, stopped: bool) {
    && 1 <= |calls| <= |plan|
    && (forall i | 0 <= i < |calls| :: calls[i].cmd == plan[i])
    && (forall i | 0 <= i < |calls| - 1 :: calls[i].good)
    && (|calls| < |plan| ==> !calls[|calls| - 1].good || stopped)
  }

  /** All calls so far follow the plan and succeeded, and there is more to come. */
  ghost predicate WellUnderWay(calls: seq<Call>, plan: seq<Cmd>) {
    |calls| < |plan| && forall i | 0 <= i < |calls| :: calls[i].cmd == plan[i] && calls[i].good
  }

  lemma NothingSent(plan: seq<Cmd>)
    requires plan != []
    ensures WellUnderWay([], plan) && LateMotions([]) == 0
  {
  }

  class SplineMotionNode {
    const forwardPos: seq<Waypoint>
    const reversePos: seq<Waypoint>
    const world: World
    var isRunning: bool

    ghost predicate Valid()
      reads this, world
    {
      reversePos == Reverse(forwardPos) && world.Valid()
    }

    constructor (forward: seq<Waypoint>, world: World)
      requires world.Valid()
      ensures Valid() && forwardPos == forward && this.world == world && !isRunning
    {
      forwardPos, this.world, isRunning := forward, world, false;
      reversePos := Reverse(forward);
    }

    /** Sends one command of the cycle and decides whether the cycle goes on: it must have succeeded
        and, unless `final`, no stop may be up afterwards. */
    method Advance(ghost plan: seq<Cmd>, calls: seq<Call>, cmd: Cmd, final: bool) returns (calls': seq<Call>, go: bool)
      requires Valid() && !world.shouldStop && LateMotions(calls) == 0
      requires WellUnderWay(calls, plan) && cmd == plan[|calls|] && (final <==> |calls| + 1 == |plan|)
      modifies world`clock, world`shouldStop, world`trace
      ensures Valid() && |calls'| == |calls| + 1 && calls == calls'[..|calls|] && LateMotions(calls') <= 1
      ensures world.trace == old(world.trace) + calls'[|calls|..]
      ensures go <==> calls'[|calls|].good && !final && !world.shouldStop
      ensures go ==> WellUnderWay(calls', plan) && LateMotions(calls') == 0
      ensures !go ==> FollowsPlan(calls', plan, world.shouldStop)
    {
      hide Faithful, LateMotions;
      var call := world.Send(cmd);
      LateSnoc(calls, call);
      calls', go := calls + [call], false;
      if call.good && !final {
        var stop := world.ReadStop();
        go := !stop;
      }
    }

    /** The body of the `try` block. */
    method Cycle() returns (calls: seq<Call>)
      requires Valid() && !world.shouldStop
      modifies world`clock, world`shouldStop, world`trace
      ensures Valid() && world.trace == old(world.trace) + calls
      ensures FollowsPlan(calls, Plan(forwardPos), world.shouldStop)
      ensures LateMotions(calls) <= 1
    {
      hide Faithful, FollowsPlan, WellUnderWay;
      ghost var plan := Plan(forwardPos);
      var go;
      NothingSent(plan);
      calls, go := Advance(plan, [], HOME, false);
      if !go { return; }
      calls, go := Advance(plan, calls, PRE_START, false);
      if !go { return; }
      calls, go := Advance(plan, calls, MoveSpline(forwardPos), false);
      if !go { return; }
      calls, go := Advance(plan, calls, MoveSpline(reversePos), false);
      if !go { return; }
      calls, go := Advance(plan, calls, HOME, true);
    }

    /** `execute_cycle`. A second call while one runs does nothing. After a stop raised since the
        cycle cleared `should_stop`, at most one more motion command starts. */
    method ExecuteCycle() returns (calls: seq<Call>)
      requires Valid()
      modifies this, world
      ensures Valid() && world.trace == old(world.trace) + calls
      ensures old(isRunning) ==> calls == [] && isRunning && unchanged(world)
      ensures !old(isRunning) ==>
        && !isRunning && world.resetAt == old(world.clock) + 1
        && FollowsPlan(calls, Plan(forwardPos), world.StopIn(world.resetAt, world.clock))
        && LateMotions(calls) <= 1
    {
      if isRunning { return []; }
      isRunning := true;
      world.Tick();
      world.ClearStop();
      calls := Cycle();
      isRunning := false;
    }
  }

  /** A cycle begins with the joint move to HOME, and a whole one also ends with it, after PRE-START, the
      spline and its reverse. */
  lemma CycleEndsAtHome(calls: seq<Call>, forward: seq<Waypoint>, stopped: bool)
    requires FollowsPlan(calls, Plan(forward), stopped)
    ensures calls[0].cmd.MoveJ? && calls[0].cmd.target == HomePos
    ensures |calls| > 1 ==> calls[1].cmd.MoveJ? && calls[1].cmd.target == PreStartPos
    ensures |calls| > 2 ==> calls[2].cmd == MoveSpline(forward)
    ensures |calls| == 5 ==> calls[4].cmd == calls[0].cmd
    ensures |calls| <= 5 && (|calls| < 5 ==> !calls[|calls| - 1].good || stopped)
  {
  }

  /** An uninterrupted cycle traces a closed path: the reverse spline starts where the forward one
      ended and ends where it started. */
  lemma CycleIsClosed(calls: seq<Call>, forward: seq<Waypoint>, stopped: bool)
    requires forward != [] && FollowsPlan(calls, Plan(forward), stopped) && |calls| >= 4
    ensures calls[2].good && calls[2].cmd.MoveSpline? && calls[3].cmd.MoveSpline?
    ensures var out, back := calls[2].cmd.points, calls[3].cmd.points;
      out != [] && |back| == |out| && back[0] == out[|out| - 1] && back[|back| - 1] == out[0]
  {
    assert calls[2].cmd == Plan(forward)[2] && calls[3].cmd == Plan(forward)[3];
  }

  /** With good answers only and no stop, a cycle issues all five commands. */
  method GoodCycle(node: SplineMotionNode) returns (calls: seq<Call>)
    requires node.Valid() && !node.isRunning
    requires forall t: nat :: node.world.env.replies(t) == Answered(true) && !node.world.env.stops(t)
    modifies node, node.world
    ensures node.Valid() && node.world.trace == old(node.world.trace) + calls && |calls| == 5
    ensures calls[2].cmd == MoveSpline(node.forwardPos) && calls[3].cmd == MoveSpline(Reverse(node.forwardPos))
  {
    hide Faithful, LateMotions;
    calls := node.ExecuteCycle();
    NewCallsAreFaithful(node.world.env, old(node.world.trace), calls);
    assert calls[|calls| - 1] in calls;
  }
}
