/** sine_wave.py: `execute_motion`, which walks the waypoint list and reverses it in place after
    every sweep, under every behaviour of the other threads. */
module SineWave {
  import opened MotionWorld

  const HOME := MoveJ(HomePos, 40.0, 30.0)
  const PRE_START := MoveJ(PreStartPos, 40.0, 30.0)

  function LineTo(wp: Waypoint): Cmd { MoveL(wp, 80.0) }

  datatype SineLog = SineLog(approach: seq<Call>, sweeps: seq<seq<Call>>, ret: seq<Call>) {
    function BeforeReturn(): seq<Call> { approach + Flatten(sweeps) }
    function All(): seq<Call> { BeforeReturn() + ret }
  }

  /** HOME, and once that succeeded PRE-START and the line to the first waypoint. */
  ghost predicate IsApproach(calls: seq<Call>, start: Waypoint) {
    && (|calls| == 1 || |calls| == 3)
    && calls[0].cmd == HOME && (calls[0].good <==> |calls| == 3)
    && (|calls| == 3 ==> calls[1].cmd == PRE_START && calls[2].cmd == LineTo(start))
  }

  function One(b: bool): nat { if b then 1 else 0 }

  /** Once a stop is up, every further call of the approach is late. */
  ghost predicate LateGrows(calls: seq<Call>) {
    && (|calls| == 1 ==> LateMotions(calls) == One(calls[0].late))
    && (|calls| == 3 ==>
          && (calls[0].late ==> calls[1].late) && (calls[1].late ==> calls[2].late)
          && LateMotions(calls) == One(calls[0].late) + One(calls[1].late) + One(calls[2].late))
  }

  predicate Arrived(approach: seq<Call>) {
    |approach| == 3 && approach[2].good
  }

  /** A walk along `path` of which only the last line can have failed. */
  ghost predicate IsSweep(calls: seq<Call>, path: seq<Waypoint>) {
    && |calls| <= |path|
    && (forall i | 0 <= i < |calls| :: calls[i].cmd == LineTo(path[i]))
    && (forall i | 0 <= i < |calls| - 1 :: calls[i].good)
  }

  ghost predicate Completed(calls: seq<Call>, path: seq<Waypoint>) {
    |calls| == |path| && (calls != [] ==> calls[|calls| - 1].good)
  }

  ghost predicate Broken(calls: seq<Call>) {
    calls != [] && !calls[|calls| - 1].good
  }

  /** Sweeps along the list and its reverse by turns, each but the last completed. */
  ghost predicate AreSweeps(sweeps: seq<seq<Call>>, wps: seq<Waypoint>) {
    && (forall k | 0 <= k < |sweeps| :: IsSweep(sweeps[k], PathOf(wps, k)))
    && (forall k | 0 <= k < |sweeps| - 1 :: Completed(sweeps[k], PathOf(wps, k)))
  }

  ghost predicate LastCompleted(sweeps: seq<seq<Call>>, wps: seq<Waypoint>) {
    sweeps != [] ==> Completed(sweeps[|sweeps| - 1], PathOf(wps, |sweeps| - 1))
  }

  ghost predicate LastBroken(sweeps: seq<seq<Call>>) {
    sweeps != [] && Broken(sweeps[|sweeps| - 1])
  }

  lemma NoSweeps(wps: seq<Waypoint>)
    ensures AreSweeps([], wps) && LastCompleted([], wps) && !LastBroken([])
    ensures Flatten([]) == [] && LateMotions([]) == 0
  {
  }

  lemma AddSweep(sweeps: seq<seq<Call>>, calls: seq<Call>, wps: seq<Waypoint>)
    requires AreSweeps(sweeps, wps) && LastCompleted(sweeps, wps)
    requires IsSweep(calls, PathOf(wps, |sweeps|))
    ensures AreSweeps(sweeps + [calls], wps)
    ensures LastBroken(sweeps + [calls]) <==> Broken(calls)
    ensures LastCompleted(sweeps + [calls], wps) <==> Completed(calls, PathOf(wps, |sweeps|))
  {
    hide IsSweep, Completed, Broken, PathOf;
  }

  /** What a run does with the list `wps` it finds: the walk ends only by a failed line (then the
      robot is just stopped), by a stop request or by a shutdown (then it is stopped and sent home). */
  ghost predicate IsSineRun(log: SineLog, wps: seq<Waypoint>, stopped: bool, down: bool)
    requires wps != []
  {
    && IsApproach(log.approach, wps[0])
    && AreSweeps(log.sweeps, wps)
    && (if !Arrived(log.approach) then log.sweeps == [] && log.ret == []
        else if LastBroken(log.sweeps) then |log.ret| == 1 && log.ret[0].cmd == MoveStop
        else (stopped || down) && |log.ret| == 2 && log.ret[0].cmd == MoveStop && log.ret[1].cmd == HOME)
  }

  /** How often a run reversed the list: once per sweep, except after a failed line. */
  ghost function Reversals(log: SineLog): nat {
    if LastBroken(log.sweeps) then |log.sweeps| - 1 else |log.sweeps|
  }

  class SineWaveNode {
    var waypoints: seq<Waypoint>
    const world: World
    var isMoving: bool
    ghost const original: seq<Waypoint>
    ghost var reversals: nat // of the list, over the life of the node

    /** The list is the original or its reverse, by the parity of the reversals. */
    ghost predicate Valid()
      reads this, world
    {
      original != [] && waypoints == PathOf(original, reversals) && world.Valid()
    }

    constructor (waypoints: seq<Waypoint>, world: World)
      requires waypoints != [] && world.Valid()
      ensures Valid() && original == waypoints && reversals == 0 && this.world == world && !isMoving
    {
      this.waypoints, this.world, isMoving, original, reversals := waypoints, world, false, waypoints, 0;
    }

    /** `self.waypoints.reverse()`. */
    method ReverseWaypoints()
      requires Valid()
      modifies this`waypoints, this`reversals
      ensures Valid() && reversals == old(reversals) + 1 && waypoints == Reverse(old(waypoints))
    {
      NextPath(original, reversals);
      waypoints := Reverse(waypoints);
      reversals := reversals + 1;
    }

    method Approach() returns (calls: seq<Call>)
      requires Valid() && !world.shouldStop && world.clock == world.resetAt
      modifies world`clock, world`shouldStop, world`trace
      ensures Valid() && world.trace == old(world.trace) + calls
      ensures calls != [] && IsApproach(calls, waypoints[0]) && |calls| == if calls[0].good then 3 else 1
      ensures TimedBy(world, world.resetAt, calls)
      ensures LateGrows(calls) && (calls[|calls| - 1].late ==> world.shouldStop)
      ensures world.resetAt == old(world.resetAt)
    {
      hide Faithful, LateMotions;
      var home := world.Send(HOME);
      LateOne(home);
      calls := [home];
      if !home.good { return; }
      var pre := world.Send(PRE_START);
      LateSnoc(calls, pre);
      Assoc(old(world.trace), calls, [pre]);
      calls := calls + [pre];
      var line := world.Send(LineTo(waypoints[0]));
      LateSnoc(calls, line);
      Assoc(old(world.trace), calls, [line]);
      calls := calls + [line];
    }

    /** The `for` loop over the list. */
    method Sweep() returns (calls: seq<Call>, failed: bool)
      requires Valid() && !world.shouldStop
      modifies world`clock, world`shouldStop, world`trace
      ensures Valid() && world.clock >= old(world.clock) && world.trace == old(world.trace) + calls
      ensures IsSweep(calls, waypoints)
      ensures failed <==> Broken(calls)
      ensures !failed && !Completed(calls, waypoints) ==> world.shouldStop
      ensures LateMotions(calls) <= if world.shouldStop then 1 else 0
    {
      hide Faithful, LateMotions;
      calls, failed := [], false;
      NoSweeps(waypoints);
      var i := 0;
      while i < |waypoints|
        invariant 0 <= i <= |waypoints| && |calls| == i
        invariant Valid() && world.clock >= old(world.clock) && world.trace == old(world.trace) + calls
        invariant forall j | 0 <= j < i :: calls[j].good && calls[j].cmd == LineTo(waypoints[j])
        invariant LateMotions(calls) <= if world.shouldStop then 1 else 0
      {
        var stop := world.ReadStop();
        if stop { break; }
        var line := world.Send(LineTo(waypoints[i]));
        LateSnoc(calls, line);
        Assoc(old(world.trace), calls, [line]);
        calls := calls + [line];
        if !line.good { failed := true; break; }
        i := i + 1;
      }
    }

    /** The `while` loop: sweep, then reverse, even when the sweep was cut short by a stop. */
    method SweepLoop() returns (sweeps: seq<seq<Call>>, failed: bool)
      requires Valid()
      modifies this`waypoints, this`reversals, world`clock, world`shouldStop, world`trace
      ensures Valid() && world.trace == old(world.trace) + Flatten(sweeps)
      ensures AreSweeps(sweeps, old(waypoints))
      ensures reversals == old(reversals) + |sweeps| - if failed then 1 else 0
      ensures failed <==> LastBroken(sweeps)
      ensures failed || world.shouldStop || world.clock >= world.env.shutdownAt
      ensures old(world.shouldStop) ==> sweeps == [] && world.shouldStop
      ensures LateMotions(Flatten(sweeps)) <= if old(world.shouldStop) then 0 else 1
    {
      hide Faithful, AreSweeps, LastCompleted, LastBroken, IsSweep, Completed, Broken, LateMotions, IsLate;
      hide PathOf, Flatten;
      sweeps, failed := [], false;
      NoSweeps(waypoints);
      NextPath(waypoints, 0);
      while world.clock < world.env.shutdownAt
        invariant Valid() && world.trace == old(world.trace) + Flatten(sweeps) && !failed
        invariant AreSweeps(sweeps, old(waypoints)) && !LastBroken(sweeps)
        invariant world.shouldStop || LastCompleted(sweeps, old(waypoints))
        invariant reversals == old(reversals) + |sweeps| && waypoints == PathOf(old(waypoints), |sweeps|)
        invariant old(world.shouldStop) ==> sweeps == [] && world.shouldStop && LateMotions(Flatten(sweeps)) == 0
        invariant LateMotions(Flatten(sweeps)) <= if world.shouldStop then 1 else 0
        decreases world.env.shutdownAt - world.clock
      {
        var stop := world.ReadStop();
        if stop { break; }
        var calls;
        calls, failed := Sweep();
        FlattenSnoc(sweeps, calls);
        Assoc(old(world.trace), Flatten(sweeps), calls);
        LateConcat(Flatten(sweeps), calls);
        AddSweep(sweeps, calls, old(waypoints));
        sweeps := sweeps + [calls];
        if failed { return; }
        NextPath(old(waypoints), |sweeps| - 1);
        ReverseWaypoints();
      }
    }

    /** The stop, and HOME unless a line failed. */
    method Return(failed: bool) returns (ret: seq<Call>)
      requires Valid()
      modifies world`clock, world`shouldStop, world`trace
      ensures Valid() && world.clock >= old(world.clock) && world.trace == old(world.trace) + ret
      ensures |ret| == (if failed then 1 else 2) && ret[0].cmd == MoveStop
      ensures !failed ==> ret[1].cmd == HOME && (old(world.shouldStop) ==> ret[1].late)
      ensures old(world.shouldStop) ==> world.shouldStop
    {
      var halt := world.Send(MoveStop);
      ret := [halt];
      if !failed {
        var home := world.Send(HOME);
        ret := [halt, home];
      }
    }

    /** `execute_motion`. */
    method ExecuteMotion() returns (log: SineLog)
      requires Valid()
      modifies this, world
      ensures Valid() && !isMoving
      ensures world.trace == old(world.trace) + log.All() && world.resetAt == old(world.clock) + 1
      ensures log.approach != []
      ensures var stopped, down := world.StopIn(world.resetAt, world.clock), world.clock >= world.env.shutdownAt;
        IsSineRun(log, old(waypoints), stopped, down)
      ensures reversals == old(reversals) + Reversals(log)
      ensures LateMotions(log.All()) <= 4
      ensures LateMotions(log.All()) > 2 <==> StopComesTooEarly(world, world.resetAt)
      ensures LateMotions(log.All()) == 4 <==> StopIsIgnored(world.env, world.resetAt)
    {
      hide Faithful, AreSweeps, IsSweep, Completed, LateMotions, Flatten, PathOf, LastCompleted, LastBroken, IsApproach;
      hide Faithful, LateGrows, TimedBy, StopComesTooEarly, StopIsIgnored, SineLog.All, SineLog.BeforeReturn;
      isMoving := true;
      world.Tick();
      world.ClearStop();
      var approach := Approach();
      ToldByEnvironment(world, world.resetAt, approach);
      NoSweeps(waypoints);
      log := SineLog(approach, [], []);
      if !Arrived(approach) {
        ApproachOnly(log);
        LateCounts(log);
        isMoving := false;
        return;
      }
      var sweeps, failed := SweepLoop();
      var ret := Return(failed);
      log := SineLog(approach, sweeps, ret);
      LogInOrder(old(world.trace), log);
      LateInRun(log);
      LateCounts(log);
      isMoving := false;
    }
  }

  /** When the calls of the approach are late and whether they succeed, told by the environment. */
  ghost predicate TimedBy(world: World, resetAt: nat, calls: seq<Call>)
    requires calls != []
  {
    && calls[0].good == Good(world.env.replies(resetAt + 2)) && calls[0].late == world.env.stops(resetAt)
    && (|calls| == 3 ==>
          && calls[1].late == world.StopIn(resetAt, resetAt + 4)
          && calls[2].good == Good(world.env.replies(resetAt + 8)))
  }

  lemma ToldByEnvironment(world: World, resetAt: nat, calls: seq<Call>)
    requires calls != [] && |calls| == (if calls[0].good then 3 else 1) && TimedBy(world, resetAt, calls)
    ensures calls[0].good && (calls[0].late || (calls[1].late && calls[2].good)) <==> StopComesTooEarly(world, resetAt)
    ensures calls[0].good && calls[0].late && calls[2].good <==> StopIsIgnored(world.env, resetAt)
  {
  }

  /** A stop comes so early that it fails to stop the approach: by the time HOME is issued, or by the
      time PRE-START is and then the line to the start succeeds. */
  ghost predicate StopComesTooEarly(world: World, resetAt: nat) {
    Good(world.env.replies(resetAt + 2)) &&
    (world.env.stops(resetAt) || (world.StopIn(resetAt, resetAt + 4) && Good(world.env.replies(resetAt + 8))))
  }

  /** The stop comes before HOME is issued and the approach succeeds all the same. */
  ghost predicate StopIsIgnored(env: Env, resetAt: nat) {
    env.stops(resetAt) && Good(env.replies(resetAt + 2)) && Good(env.replies(resetAt + 8))
  }

  lemma ApproachOnly(log: SineLog)
    requires log.sweeps == [] && log.ret == []
    ensures log.All() == log.approach
  {
  }

  /** How many motions start late, told by the approach alone: if the stop is up before the line to the
      start is issued, no sweep starts, and HOME is late if the line succeeded. */
  lemma LateCounts(log: SineLog)
    requires log.approach != [] && |log.approach| == (if log.approach[0].good then 3 else 1) && LateGrows(log.approach)
    requires !Arrived(log.approach) ==> LateMotions(log.All()) == LateMotions(log.approach)
    requires Arrived(log.approach) ==> LateMotions(Flatten(log.sweeps)) <= if log.approach[2].late then 0 else 1
    requires Arrived(log.approach) ==>
      exists h ::
        && LateMotions(log.All()) == LateMotions(log.approach) + LateMotions(Flatten(log.sweeps)) + One(h)
        && (log.approach[2].late ==> h)
    ensures LateMotions(log.All()) <= 4
    ensures LateMotions(log.All()) > 2 <==>
      log.approach[0].good && (log.approach[0].late || (log.approach[1].late && log.approach[2].good))
    ensures LateMotions(log.All()) == 4 <==> log.approach[0].good && log.approach[0].late && log.approach[2].good
  {
    hide LateMotions, Flatten, SineLog.All;
  }

  lemma LogInOrder(before: seq<Call>, log: SineLog)
    ensures before + log.approach + Flatten(log.sweeps) + log.ret == before + log.All()
  {
    hide Flatten;
    Assoc(before, log.approach, Flatten(log.sweeps));
    Assoc(before, log.BeforeReturn(), log.ret);
  }

  lemma LateInRun(log: SineLog)
    requires 1 <= |log.ret| <= 2 && log.ret[0].cmd.MoveStop? && (|log.ret| == 2 ==> !log.ret[1].cmd.MoveStop?)
    ensures var h := |log.ret| == 2 && log.ret[1].late;
            LateMotions(log.All()) == LateMotions(log.approach) + LateMotions(Flatten(log.sweeps)) + One(h)
  {
    hide Flatten;
    LateConcat(log.approach, Flatten(log.sweeps));
    LateConcat(log.BeforeReturn(), log.ret);
    LateOne(log.ret[0]);
    if |log.ret| == 1 {
      assert log.ret == [log.ret[0]];
    } else {
      LateSnoc([log.ret[0]], log.ret[1]);
      assert log.ret == [log.ret[0]] + [log.ret[1]];
    }
  }

  /** Four motions do start after a stop: one raised right after the reset, with every call answered
      well and rclpy up. */
  method FourLateMotions(wp: Waypoint) returns (world: World)
    ensures LateMotions(world.trace) == 4
  {
    hide Faithful, IsSineRun, LateMotions, SineLog.All, Reversals, PathOf;
    world := new World(Env(t => t == 1, t => Answered(true), 1000));
    var node := new SineWaveNode([wp], world);
    var log := node.ExecuteMotion();
    assert world.trace == log.All();
  }

  /** The walk never jumps: every sweep that sends anything sends first the very line that was sent
      and answered last before it, so it starts where the arm stands. */
  lemma SweepsAreContinuous(log: SineLog, wps: seq<Waypoint>, stopped: bool, down: bool, k: nat)
    requires wps != [] && IsSineRun(log, wps, stopped, down) && k < |log.sweeps| && log.sweeps[k] != []
    ensures var before := if k == 0 then log.approach else log.sweeps[k - 1];
      && before != [] && before[|before| - 1].good
      && log.sweeps[k][0].cmd == before[|before| - 1].cmd
  {
    hide PathOf, Completed, IsSweep;
    assert IsSweep(log.sweeps[k], PathOf(wps, k));
    SweepBegins(log.sweeps[k], PathOf(wps, k));
    if k == 0 {
      NextPath(wps, 0);
    } else {
      PathsJoin(wps, k);
      assert IsSweep(log.sweeps[k - 1], PathOf(wps, k - 1));
      assert Completed(log.sweeps[k - 1], PathOf(wps, k - 1));
      CompletedSweepEnds(log.sweeps[k - 1], PathOf(wps, k - 1));
    }
  }

  lemma SweepBegins(calls: seq<Call>, path: seq<Waypoint>)
    requires IsSweep(calls, path) && calls != []
    ensures calls[0].cmd == LineTo(path[0])
  {
  }

  lemma CompletedSweepEnds(calls: seq<Call>, path: seq<Waypoint>)
    requires IsSweep(calls, path) && Completed(calls, path) && path != []
    ensures calls != [] && calls[|calls| - 1].good && calls[|calls| - 1].cmd == LineTo(path[|path| - 1])
  {
  }

  /** Over any number of runs with stops and restarts in between, the list is the original or its
      reverse by the parity of all reversals executed, and so is the path each run starts on. */
  method RunManyTimes(node: SineWaveNode, times: nat) returns (logs: seq<SineLog>)
    requires node.Valid() && node.reversals == 0
    modifies node, node.world
    ensures node.Valid() && |logs| == times && node.world.trace == old(node.world.trace) + AllCalls(logs)
    ensures node.waypoints == PathOf(node.original, AllReversals(logs))
    ensures forall i | 0 <= i < times ::
      logs[i].approach != [] && IsApproach(logs[i].approach, PathOf(node.original, AllReversals(logs[..i]))[0])
  {
    hide Faithful, AreSweeps, LastBroken, LateMotions, Flatten, PathOf, IsApproach, Arrived, Reversals, AllReversals;
    hide Faithful, AllCalls, SineLog.All;
    NoRuns();
    logs := [];
    while |logs| < times
      invariant node.Valid() && |logs| <= times && node.world.trace == old(node.world.trace) + AllCalls(logs)
      invariant node.reversals == AllReversals(logs)
      invariant forall i | 0 <= i < |logs| ::
        logs[i].approach != [] && IsApproach(logs[i].approach, PathOf(node.original, AllReversals(logs[..i]))[0])
    {
      var log := node.ExecuteMotion();
      OneMore(logs, log);
      Assoc(old(node.world.trace), AllCalls(logs), log.All());
      logs := logs + [log];
    }
  }

  lemma NoRuns()
    ensures AllReversals([]) == 0 && AllCalls([]) == []
  {
  }

  lemma {:induction false} OneMore(logs: seq<SineLog>, log: SineLog)
    ensures AllReversals(logs + [log]) == AllReversals(logs) + Reversals(log)
    ensures AllCalls(logs + [log]) == AllCalls(logs) + log.All()
    ensures forall i | 0 <= i <= |logs| :: (logs + [log])[..i] == logs[..i]
  {
    assert (logs + [log])[..|logs|] == logs;
  }

  ghost function AllReversals(logs: seq<SineLog>): nat {
    if logs == [] then 0 else AllReversals(logs[..|logs| - 1]) + Reversals(logs[|logs| - 1])
  }

  function AllCalls(logs: seq<SineLog>): seq<Call> {
    if logs == [] then [] else AllCalls(logs[..|logs| - 1]) + logs[|logs| - 1].All()
  }

  /** With good answers only and no stop, a run is HOME, PRE-START, the line to the first waypoint and then
      whole sweeps, out and back by turns, until rclpy is shut down, and then the stop and HOME. */
  method GoodRun(node: SineWaveNode) returns (log: SineLog)
    requires node.Valid() && forall t: nat :: node.world.env.replies(t) == Answered(true) && !node.world.env.stops(t)
    modifies node, node.world
    ensures node.Valid() && node.world.trace == old(node.world.trace) + log.All()
    ensures IsGoodRun(log, old(node.waypoints))
    ensures node.world.clock >= node.world.env.shutdownAt
  {
    hide Faithful, Flatten, SineLog.All, PathOf, LateMotions, IsGoodRun;
    log := node.ExecuteMotion();
    NewCallsAreFaithful(node.world.env, old(node.world.trace), log.All());
    AllGoodRun(log, old(node.waypoints), node.world.clock >= node.world.env.shutdownAt);
  }

  ghost predicate IsGoodRun(log: SineLog, wps: seq<Waypoint>)
    requires wps != []
  {
    && |log.approach| == 3 && log.approach[0].cmd == MoveJ(HomePos, 40.0, 30.0)
    && log.approach[1].cmd == MoveJ(PreStartPos, 40.0, 30.0) && log.approach[2].cmd == MoveL(wps[0], 80.0)
    && (forall k, i | 0 <= k < |log.sweeps| && 0 <= i < |log.sweeps[k]| ::
          i < |wps| && log.sweeps[k][i].cmd == MoveL(PathOf(wps, k)[i], 80.0))
    && (forall k | 0 <= k < |log.sweeps| - 1 :: |log.sweeps[k]| == |wps|)
    && |log.ret| == 2 && log.ret[0].cmd == MoveStop && log.ret[1].cmd == MoveJ(HomePos, 40.0, 30.0)
  }

  lemma AllGoodRun(log: SineLog, wps: seq<Waypoint>, down: bool)
    requires wps != [] && IsSineRun(log, wps, false, down) && forall c | c in log.All() :: c.good
    ensures IsGoodRun(log, wps) && down
  {
    forall i | 0 <= i < |log.approach| ensures log.approach[i].good { assert log.approach[i] in log.All(); }
    forall k, i | 0 <= k < |log.sweeps| && 0 <= i < |log.sweeps[k]| ensures log.sweeps[k][i].good {
      FlattenHas(log.sweeps, k, log.sweeps[k][i]);
    }
    forall k | 0 <= k < |log.sweeps| ensures IsSweep(log.sweeps[k], PathOf(wps, k)) {}
  }
}
