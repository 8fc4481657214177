/** arc_motion.py: `execute_arc` and the sweeps along the arc, under every behaviour of the other
    threads (see MotionWorld). */
module ArcMotion {
  import opened MotionWorld

  const FIRST_HOME := MoveJ(HomePos, 60.0, 120.0)
  const PRE_START := MoveJ(PreStartPos, 60.0, 120.0)
  const RETURN_HOME := MoveJ(HomePos, 20.0, 40.0)
  const BLEND_RADIUS: real := 50.0

  /** The calls of one run: the approach, one list per sweep, and the return. */
  datatype ArcLog = ArcLog(approach: seq<Call>, sweeps: seq<seq<Call>>, ret: seq<Call>) {
    function All(): seq<Call> { approach + Flatten(sweeps) + ret }
  }

  /** HOME, then PRE-START (whatever it answers), then the line to the first waypoint. */
  ghost predicate IsApproach(calls: seq<Call>, start: Waypoint) {
    && 1 <= |calls| <= 3
    && calls[0].cmd == FIRST_HOME
    && (|calls| > 1 ==> calls[0].good && calls[1].cmd == PRE_START)
    && (|calls| > 2 ==> calls[2].cmd == MoveL(start, 0.0))
  }

  predicate Arrived(approach: seq<Call>) {
    |approach| == 3 && approach[2].good
  }

  /** One sweep along `path`: a spline through all its points and, only if that fails, the same
      points as blended lines, of which only the last one sent can have failed. */
  ghost predicate IsSweep(calls: seq<Call>, path: seq<Waypoint>) {
    && 1 <= |calls| <= 1 + |path|
    && calls[0].cmd == MoveSpline(path)
    && (calls[0].good ==> |calls| == 1)
    && (forall i | 1 <= i < |calls| ::
          && calls[i].cmd == MoveL(path[i - 1], if i < |path| then BLEND_RADIUS else 0.0)
          && (i < |calls| - 1 ==> calls[i].good))
  }

  /** The sweep reached the end of its path. */
  ghost predicate Completed(calls: seq<Call>, path: seq<Waypoint>) {
    calls != [] && calls[|calls| - 1].good && (|calls| == 1 || |calls| == 1 + |path|)
  }

  /** The sweep ended at a line that failed. */
  ghost predicate Broken(calls: seq<Call>) {
    |calls| > 1 && !calls[|calls| - 1].good
  }

  /** Sweeps out and back by turns, each but the last completed. */
  ghost predicate AreSweeps(sweeps: seq<seq<Call>>, wps: seq<Waypoint>) {
    && (forall k | 0 <= k < |sweeps| :: IsSweep(sweeps[k], PathOf(wps, k)))
    && (forall k | 0 <= k < |sweeps| - 1 :: Completed(sweeps[k], PathOf(wps, k)))
  }

  ghost predicate LastCompleted(sweeps: seq<seq<Call>>, wps: seq<Waypoint>) {
    sweeps != [] ==> Completed(sweeps[|sweeps| - 1], PathOf(wps, |sweeps| - 1))
  }

  ghost predicate LastBroken(sweeps: seq<seq<Call>>) {
    sweeps != [] && Broken(sweeps[|sweeps| - 1])
  }

  lemma NoSweeps(wps: seq<Waypoint>)
    ensures AreSweeps([], wps) && LastCompleted([], wps) && LateMotions(Flatten([])) == 0
  {
  }

  lemma AddSweep(sweeps: seq<seq<Call>>, calls: seq<Call>, wps: seq<Waypoint>)
    requires AreSweeps(sweeps, wps) && LastCompleted(sweeps, wps) && IsSweep(calls, PathOf(wps, |sweeps|))
    ensures AreSweeps(sweeps + [calls], wps)
    ensures LastBroken(sweeps + [calls]) <==> Broken(calls)
    ensures LastCompleted(sweeps + [calls], wps) <==> Completed(calls, PathOf(wps, |sweeps|))
  {
    hide IsSweep, Completed, Broken, PathOf;
  }

  /** What a run of `execute_arc` does. `stopped` says whether `should_stop` was raised after the
      run's own reset, `down` whether rclpy was shut down: a sweep is followed by another only if it
      was completed, and the sweeping ends only by a failed line, a stop or a shutdown. */
  ghost predicate IsArcRun(log: ArcLog, wps: seq<Waypoint>, stopped: bool, down: bool)
    requires wps != []
  {
    && IsApproach(log.approach, wps[0])
    && (log.approach[0].good && |log.approach| < 3 ==> stopped)
    && AreSweeps(log.sweeps, wps)
    && (if Arrived(log.approach)
        then |log.ret| == 2 && log.ret[0].cmd == RETURN_HOME && log.ret[1].cmd == MoveStop
        else log.sweeps == [] && log.ret == [])
    && (Arrived(log.approach) ==> stopped || down || LastBroken(log.sweeps))
  }

  class ArcMotionNode {
    const waypoints: seq<Waypoint>
    const waypointsRev: seq<Waypoint>
    const world: World
    var isMoving: bool

    ghost predicate Valid()
      reads this, world
    {
      waypoints != [] && waypointsRev == Reverse(waypoints) && world.Valid()
    }

    constructor (waypoints: seq<Waypoint>, world: World)
      requires waypoints != [] && world.Valid()
      ensures Valid() && this.waypoints == waypoints && this.world == world && !isMoving
    {
      this.waypoints, this.world, isMoving := waypoints, world, false;
      waypointsRev := Reverse(waypoints);
    }

    /** Steps 1 to 3: everything before the first sweep. */
    method Approach() returns (calls: seq<Call>)
      requires Valid() && !world.shouldStop && world.clock == world.resetAt
      modifies world`clock, world`shouldStop, world`trace
      ensures Valid() && world.clock >= old(world.clock) && world.trace == old(world.trace) + calls
      ensures calls != [] && IsApproach(calls, waypoints[0])
      ensures |calls| == 3 <==> Uninterrupted(world, world.resetAt)
      ensures calls[0].good && |calls| < 3 ==> world.shouldStop
      ensures LateMotions(calls) <= 1 && (LateMotions(calls) == 1 ==> world.shouldStop)
    {
      hide Faithful, LateMotions;
      var home := world.Send(FIRST_HOME);
      LateOne(home);
      calls := [home];
      if !home.good { return; }
      var stop := world.ReadStop();
      if stop { return; }
      var pre := world.Send(PRE_START);
      LateSnoc(calls, pre);
      Assoc(old(world.trace), calls, [pre]);
      calls := calls + [pre];
      stop := world.ReadStop();
      if stop { return; }
      var line := world.Send(MoveL(waypoints[0], 0.0));
      LateSnoc(calls, line);
      Assoc(old(world.trace), calls, [line]);
      calls := calls + [line];
    }

    /** One pass of the `while` body along `path`; `failed` when the fallback gave up. */
    method Sweep(path: seq<Waypoint>) returns (calls: seq<Call>, failed: bool)
      requires Valid() && path != [] && !world.shouldStop
      modifies world`clock, world`shouldStop, world`trace
      ensures Valid() && world.clock > old(world.clock) && world.trace == old(world.trace) + calls
      ensures IsSweep(calls, path)
      ensures failed <==> Broken(calls)
      ensures !failed && !Completed(calls, path) ==> world.shouldStop
      ensures LateMotions(calls) <= 1 && (LateMotions(calls) == 1 ==> world.shouldStop)
    {
      hide Faithful, LateMotions;
      var spline := world.Send(MoveSpline(path));
      LateOne(spline);
      calls, failed := [spline], false;
      if !spline.good {
        var i := 0;
        while i < |path|
          invariant 0 <= i <= |path| && |calls| == 1 + i && Valid() && world.clock > old(world.clock)
          invariant world.trace == old(world.trace) + calls
          invariant IsSweep(calls, path) && !calls[0].good && (i > 0 ==> calls[i].good)
          invariant LateMotions(calls) <= 1 && (LateMotions(calls) == 1 ==> world.shouldStop)
        {
          var stop := world.ReadStop();
          if stop { break; }
          var isLast := i == |path| - 1;
          var line := world.Send(MoveL(path[i], if isLast then 0.0 else BLEND_RADIUS));
          LateSnoc(calls, line);
          Assoc(old(world.trace), calls, [line]);
          calls := calls + [line];
          if !line.good { failed := true; break; }
          i := i + 1;
        }
      }
    }

    /** The `while` loop of step 4. */
    method SweepLoop() returns (sweeps: seq<seq<Call>>)
      requires Valid()
      modifies world`clock, world`shouldStop, world`trace
      ensures Valid() && world.trace == old(world.trace) + Flatten(sweeps)
      ensures AreSweeps(sweeps, waypoints)
      ensures old(world.shouldStop) ==> sweeps == [] && world.shouldStop
      ensures world.shouldStop || world.clock >= world.env.shutdownAt || LastBroken(sweeps)
      ensures LateMotions(Flatten(sweeps)) <= if old(world.shouldStop) then 0 else 1
    {
      hide Faithful, AreSweeps, LastCompleted, LastBroken, IsSweep, Completed, Broken, LateMotions, IsLate;
      var forward, loopCount, failed := true, 0, false;
      NoSweeps(waypoints);
      sweeps := [];
      while !failed && world.clock < world.env.shutdownAt
        invariant Valid() && world.trace == old(world.trace) + Flatten(sweeps)
        invariant loopCount == |sweeps| && forward == (loopCount % 2 == 0)
        invariant AreSweeps(sweeps, waypoints)
        invariant failed ==> LastBroken(sweeps)
        invariant failed || world.shouldStop || LastCompleted(sweeps, waypoints)
        invariant old(world.shouldStop) ==> sweeps == [] && world.shouldStop && LateMotions(Flatten(sweeps)) == 0
        invariant LateMotions(Flatten(sweeps)) <= if world.shouldStop then 1 else 0
        decreases world.env.shutdownAt - world.clock
      {
        var stop := world.ReadStop();
        if stop { break; }
        loopCount := loopCount + 1;
        var path := if forward then waypoints else waypointsRev;
        var calls;
        calls, failed := Sweep(path);
        FlattenSnoc(sweeps, calls);
        Assoc(old(world.trace), Flatten(sweeps), calls);
        LateConcat(Flatten(sweeps), calls);
        AddSweep(sweeps, calls, waypoints);
        sweeps := sweeps + [calls];
        forward := !forward;
      }
    }

    /** `execute_arc`. */
    method ExecuteArc() returns (log: ArcLog)
      requires Valid()
      modifies this, world
      ensures Valid() && !isMoving
      ensures world.trace == old(world.trace) + log.All()
      ensures world.resetAt == old(world.clock) + 1
      ensures IsArcRun(log, waypoints, world.StopIn(world.resetAt, world.clock), world.clock >= world.env.shutdownAt)
      ensures Motions(log.All()) > 2 <==> Uninterrupted(world, world.resetAt)
      ensures LateMotions(log.All()) <= 2 && LateMotions(log.approach + Flatten(log.sweeps)) <= 1
    {
      hide Faithful, ArcLog.All, LateMotions, Motions, Flatten, AreSweeps, LastBroken, IsApproach, Uninterrupted;
      isMoving := true;
      world.Tick();
      world.ClearStop();
      var approach := Approach();
      log := ArcLog(approach, [], []);
      if !Arrived(approach) {
        ApproachOnly(log, waypoints);
        MotionsOfRun(log, waypoints[0]);
        isMoving := false;
        return;
      }
      var sweeps := SweepLoop();
      var home := world.Send(RETURN_HOME);
      var halt := world.Send(MoveStop);
      log := ArcLog(approach, sweeps, [home, halt]);
      LateInRun(log, home, halt);
      LogInOrder(old(world.trace), log, home, halt);
      MotionsOfRun(log, waypoints[0]);
      isMoving := false;
    }
  }

  /** HOME succeeds, and no stop comes between the reset and the line to the arc. */
  ghost predicate Uninterrupted(world: World, resetAt: nat) {
    Good(world.env.replies(resetAt + 2)) && !world.StopIn(resetAt, resetAt + 8)
  }

  /** A run issues more than two motions exactly when it completes the approach. */
  lemma MotionsOfRun(log: ArcLog, start: Waypoint)
    requires IsApproach(log.approach, start) && (!Arrived(log.approach) ==> log.All() == log.approach)
    ensures Motions(log.All()) > 2 <==> |log.approach| == 3
  {
    hide Flatten, Motions;
    MotionsGrow(log.approach, Flatten(log.sweeps) + log.ret);
    assert log.All() == log.approach + (Flatten(log.sweeps) + log.ret);
  }

  lemma ApproachOnly(log: ArcLog, wps: seq<Waypoint>)
    requires log.sweeps == [] && log.ret == []
    ensures log.All() == log.approach == log.approach + Flatten(log.sweeps) && AreSweeps(log.sweeps, wps)
  {
  }

  lemma LogInOrder(before: seq<Call>, log: ArcLog, home: Call, halt: Call)
    requires log.ret == [home, halt]
    ensures before + log.approach + Flatten(log.sweeps) + [home] + [halt] == before + log.All()
  {
    hide Flatten;
    var body := log.approach + Flatten(log.sweeps);
    Assoc(before, log.approach, Flatten(log.sweeps));
    Assoc(before + body, [home], [halt]);
    assert [home] + [halt] == log.ret;
    Assoc(before, body, log.ret);
  }

  lemma LateInRun(log: ArcLog, home: Call, halt: Call)
    requires log.ret == [home, halt] && halt.cmd.MoveStop?
    ensures LateMotions(log.approach + Flatten(log.sweeps))
         == LateMotions(log.approach) + LateMotions(Flatten(log.sweeps))
    ensures LateMotions(log.All()) <= LateMotions(log.approach + Flatten(log.sweeps)) + 1
  {
    hide Flatten;
    LateConcat(log.approach, Flatten(log.sweeps));
    LateSnoc(log.approach + Flatten(log.sweeps), home);
    LateSnoc(log.approach + Flatten(log.sweeps) + [home], halt);
    assert log.All() == log.approach + Flatten(log.sweeps) + [home] + [halt];
  }

  /** Where a command leads. */
  function Target(cmd: Cmd): Waypoint
    requires cmd.MoveL? || (cmd.MoveSpline? && cmd.points != [])
  {
    if cmd.MoveL? then cmd.to else cmd.points[|cmd.points| - 1]
  }

  /** The path never jumps: every sweep's spline starts where the last command before it led, and
      that command succeeded; sweep `k` runs forward exactly when it is the odd-numbered one. */
  lemma SweepsAreContinuous(log: ArcLog, wps: seq<Waypoint>, stopped: bool, down: bool, k: nat)
    requires wps != [] && IsArcRun(log, wps, stopped, down) && k < |log.sweeps|
    ensures log.sweeps[k][0].cmd == MoveSpline(PathOf(wps, k))
    ensures var before := if k == 0 then log.approach else log.sweeps[k - 1];
      && before != [] && before[|before| - 1].good
      && (before[|before| - 1].cmd.MoveL? || before[|before| - 1].cmd.MoveSpline?)
      && PathOf(wps, k)[0] == Target(before[|before| - 1].cmd)
  {
    hide PathOf, IsSweep, Completed;
    assert IsSweep(log.sweeps[k], PathOf(wps, k));
    SweepBegins(log.sweeps[k], PathOf(wps, k));
    if k == 0 {
      NextPath(wps, 0);
    } else {
      PathsJoin(wps, k);
      assert IsSweep(log.sweeps[k - 1], PathOf(wps, k - 1));
      assert Completed(log.sweeps[k - 1], PathOf(wps, k - 1));
      CompletedSweepEnds(log.sweeps[k - 1], PathOf(wps, k - 1));
    }
  }

  lemma SweepBegins(calls: seq<Call>, path: seq<Waypoint>)
    requires IsSweep(calls, path)
    ensures calls != [] && calls[0].cmd == MoveSpline(path)
  {
  }

  /** The last command of a completed sweep succeeded and leads to the end of its path. */
  lemma CompletedSweepEnds(calls: seq<Call>, path: seq<Waypoint>)
    requires IsSweep(calls, path) && Completed(calls, path) && path != []
    ensures calls != []
    ensures var last := calls[|calls| - 1];
      && last.good && (last.cmd.MoveL? || (last.cmd.MoveSpline? && last.cmd.points != []))
      && Target(last.cmd) == path[|path| - 1]
  {
  }

  /** The bound needs the stop to come after the run's own reset. A stop raised before it is lost: the
      run issues its whole approach if and only if HOME succeeds and no later stop comes in time. If no
      later stop comes at all, the run ends only when a command fails or rclpy is shut down. */
  method EarlyStopIsLost(node: ArcMotionNode) returns (log: ArcLog)
    requires node.Valid() && node.world.env.stops(node.world.clock)
    modifies node, node.world
    ensures node.Valid() && node.world.trace == old(node.world.trace) + log.All()
    ensures Motions(log.All()) > 2 <==> Uninterrupted(node.world, old(node.world.clock) + 1)
    ensures (forall t: nat | t > old(node.world.clock) :: !node.world.env.stops(t)) && Arrived(log.approach) ==>
      node.world.clock >= node.world.env.shutdownAt || LastBroken(log.sweeps)
  {
    hide Faithful, AreSweeps, LastBroken, LateMotions, Motions, Flatten, ArcLog.All, Uninterrupted;
    log := node.ExecuteArc();
  }

  /** With good answers only and no stop, a run is HOME, PRE-START, the line to the arc, one spline after
      another, out and back by turns, until rclpy is shut down, and then HOME, slowly, and the stop. */
  method GoodRun(node: ArcMotionNode) returns (log: ArcLog)
    requires node.Valid() && forall t: nat :: node.world.env.replies(t) == Answered(true) && !node.world.env.stops(t)
    modifies node, node.world
    ensures node.Valid() && node.world.trace == old(node.world.trace) + log.All()
    ensures Commands(log.approach) ==
      [MoveJ(HomePos, 60.0, 120.0), MoveJ(PreStartPos, 60.0, 120.0), MoveL(node.waypoints[0], 0.0)]
    ensures forall k | 0 <= k < |log.sweeps| :: Commands(log.sweeps[k]) == [MoveSpline(PathOf(node.waypoints, k))]
    ensures Commands(log.ret) == [MoveJ(HomePos, 20.0, 40.0), MoveStop]
    ensures node.world.clock >= node.world.env.shutdownAt
  {
    hide Faithful, Motions, Flatten, ArcLog.All, PathOf, LateMotions;
    log := node.ExecuteArc();
    NewCallsAreFaithful(node.world.env, old(node.world.trace), log.All());
    AllGoodRun(log, node.waypoints, node.world.clock >= node.world.env.shutdownAt);
  }

  /** The commands of some calls. */
  function Commands(calls: seq<Call>): (cmds: seq<Cmd>)
    ensures |cmds| == |calls| && forall i | 0 <= i < |calls| :: cmds[i] == calls[i].cmd
  {
    if calls == [] then [] else Commands(calls[..|calls| - 1]) + [calls[|calls| - 1].cmd]
  }

  lemma AllGoodRun(log: ArcLog, wps: seq<Waypoint>, down: bool)
    requires wps != [] && IsArcRun(log, wps, false, down) && forall c | c in log.All() :: c.good
    ensures Commands(log.approach) == [MoveJ(HomePos, 60.0, 120.0), MoveJ(PreStartPos, 60.0, 120.0), MoveL(wps[0], 0.0)]
    ensures forall k | 0 <= k < |log.sweeps| :: Commands(log.sweeps[k]) == [MoveSpline(PathOf(wps, k))]
    ensures Commands(log.ret) == [MoveJ(HomePos, 20.0, 40.0), MoveStop] && down
  {
    forall i | 0 <= i < |log.approach| ensures log.approach[i].good { assert log.approach[i] in log.All(); }
    forall k, i | 0 <= k < |log.sweeps| && 0 <= i < |log.sweeps[k]| ensures log.sweeps[k][i].good {
      FlattenHas(log.sweeps, k, log.sweeps[k][i]);
    }
    forall k | 0 <= k < |log.sweeps| ensures Commands(log.sweeps[k]) == [MoveSpline(PathOf(wps, k))] {
      assert IsSweep(log.sweeps[k], PathOf(wps, k));
    }
  }

  /** With bad answers only, a run is the request to go HOME and nothing else. */
  method BadRun(node: ArcMotionNode) returns (log: ArcLog)
    requires node.Valid() && forall t: nat :: node.world.env.replies(t) != Answered(true)
    modifies node, node.world
    ensures node.Valid() && node.world.trace == old(node.world.trace) + log.All()
    ensures Commands(log.All()) == [MoveJ(HomePos, 60.0, 120.0)]
  {
    hide Faithful, Motions, PathOf, LateMotions, AreSweeps;
    log := node.ExecuteArc();
    NewCallsAreFaithful(node.world.env, old(node.world.trace), log.All());
    assert log.approach[0] in log.All();
    assert log.All() == log.approach;
  }

  /** In a fallback every line but the last of the path has the blending radius 50, and the last 0. */
  lemma FallbackRadii(log: ArcLog, wps: seq<Waypoint>, stopped: bool, down: bool, k: nat, i: nat)
    requires wps != [] && IsArcRun(log, wps, stopped, down) && k < |log.sweeps| && 1 <= i < |log.sweeps[k]|
    ensures log.sweeps[k][i].cmd == MoveL(PathOf(wps, k)[i - 1], if i == |wps| then 0.0 else 50.0)
  {
    assert IsSweep(log.sweeps[k], PathOf(wps, k));
  }
}
