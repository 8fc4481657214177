/** The multi-robot rendezvous of DSR_util2.py: one lock and one flag per robot, any number of
    threads, and every flag access, lock operation and mask load or store is one atomic step. */
module RobotSync {
  import opened Bits

  /** The attributes of one `CRobotSync`. `locked[r]` is the state of `lock[r]`. */
  datatype Shared = Shared(nIsRun: bool, nWaitBit: nat, nCurBit: nat, bIsWait: seq<bool>, locked: seq<bool>) {
    function Robots(): nat { |bIsWait| }
  }

  /** Where a thread stands: the next statement it executes. */
  datatype Pc =
    | Idle
    | WaitFlag(r: nat) | WaitAcquire(r: nat) | WaitClear(r: nat)
    | WakeHead(r: nat) | WakeTest(r: nat) | WakeRelease(r: nat)
    | AllReset | AllHead | AllTest(i: nat) | AllLoad(i: nat) | AllStore(i: nat, loaded: nat)
    | AllCompare | AllRelease(i: nat)
    | Raised

  /** What a step did, for the history kept beside the program's own state. */
  datatype Effect = Tau | Acquired(r: nat) | Released(r: nat) | Began | Saw(i: nat) | SweepDone

  datatype Outcome = Outcome(shared: Shared, pc: Pc, effect: Effect)

  /** `lock[r].release()`: a free lock, like a missing one, raises and changes nothing. */
  function Release(s: Shared, r: nat, next: Pc): Outcome {
    if r < |s.locked| && s.locked[r] then Outcome(s.(locked := s.locked[r := false]), next, Released(r))
    else Outcome(s, Raised, Tau)
  }

  /** One statement of the thread at `pc`. Acquiring a held lock leaves the thread where it is. */
  function Fire(s: Shared, pc: Pc): Outcome {
    match pc
    case Idle => Outcome(s, pc, Tau)
    case Raised => Outcome(s, pc, Tau)
    case WaitFlag(r) =>
      if r < |s.bIsWait| then Outcome(s.(bIsWait := s.bIsWait[r := true]), WaitAcquire(r), Tau)
      else Outcome(s, Raised, Tau)
    case WaitAcquire(r) =>
      if r >= |s.locked| then Outcome(s, Raised, Tau)
      else if s.locked[r] then Outcome(s, pc, Tau)
      else Outcome(s.(locked := s.locked[r := true]), WaitClear(r), Acquired(r))
    case WaitClear(r) =>
      if r < |s.bIsWait| then Outcome(s.(bIsWait := s.bIsWait[r := false]), Idle, Tau)
      else Outcome(s, Raised, Tau)
    case WakeHead(r) => Outcome(s, if s.nIsRun then WakeTest(r) else Idle, Tau)
    case WakeTest(r) =>
      if r >= |s.bIsWait| then Outcome(s, Raised, Tau)
      else Outcome(s, if s.bIsWait[r] then WakeRelease(r) else WakeHead(r), Tau)
    case WakeRelease(r) => Release(s, r, Idle)
    case AllReset => Outcome(s.(nCurBit := 0), AllHead, Began)
    case AllHead => Outcome(s, if s.nIsRun then AllTest(0) else AllRelease(0), Tau)
    case AllTest(i) =>
      if i >= |s.bIsWait| then Outcome(s, AllCompare, Tau)
      else if s.bIsWait[i] then Outcome(s, AllLoad(i), Saw(i))
      else Outcome(s, AllTest(i + 1), Tau)
    case AllLoad(i) => Outcome(s, AllStore(i, s.nCurBit), Tau)
    case AllStore(i, loaded) => Outcome(s.(nCurBit := BitOr(loaded, Pow2(i))), AllTest(i + 1), Tau)
    case AllCompare => Outcome(s, if s.nWaitBit == s.nCurBit then AllRelease(0) else AllHead, Tau)
    case AllRelease(i) =>
      if i < |s.locked| then Release(s, i, AllRelease(i + 1)) else Outcome(s, Idle, SweepDone)
  }

  function OneMore(counts: multiset<nat>, r: nat): multiset<nat> {
    counts[r := counts[r] + 1]
  }

  /** The attributes right after construction for `r` robots: the locks start free. */
  function Fresh(r: nat): Shared {
    Shared(true, Pow2(r) - 1, 0, seq(r, _ => false), seq(r, _ => false))
  }

  /** The object itself, updated in place. */
  class CRobotSync {
    var nRobot: nat
    var nIsRun: bool
    var nWaitBit: nat
    var nCurBit: nat
    var bIsWait: seq<bool>
    var lock: seq<bool>
    ghost var acquired: multiset<nat> // completed acquisitions per robot
    ghost var released: multiset<nat>

    /** The masks stay in range, and the tokens of every robot are conserved. */
    ghost predicate Valid()
      reads this
    {
      SharedFits(View(), nRobot) && Conserved(View(), acquired, released)
    }

    ghost function View(): Shared
      reads this
    {
      Shared(nIsRun, nWaitBit, nCurBit, bIsWait, lock)
    }

    constructor (r: nat)
      ensures Valid() && View() == Fresh(r) && acquired == multiset{} && released == multiset{}
    {
      nRobot, nIsRun, nWaitBit, nCurBit := r, true, 0, 0;
      bIsWait, lock := [], [];
      acquired, released := multiset{}, multiset{};
      new;
      for i := 0 to r
        invariant nRobot == r && nIsRun && nCurBit == 0 && acquired == multiset{} && released == multiset{}
        invariant bIsWait == seq(i, _ => false) && lock == seq(i, _ => false)
        invariant nWaitBit == Pow2(i) - 1
      {
        lock := lock + [false];
        bIsWait := bIsWait + [false];
        GrowMask(i);
        nWaitBit := BitOr(nWaitBit, Pow2(i));
      }
      forall k: nat ensures !TestBit(0, k) { ZeroHasNoBits(k); }
    }

    method CleanUp()
      requires Valid()
      modifies this`nIsRun
      ensures Valid() && View() == old(View()).(nIsRun := false)
    {
      if nIsRun { nIsRun := false; }
    }

    method ReleaseLock(r: nat, after: Pc) returns (next: Pc, effect: Effect)
      requires |bIsWait| == |lock| == nRobot
      modifies this`lock
      ensures Outcome(View(), next, effect) == Release(old(View()), r, after)
    {
      if r < nRobot && lock[r] {
        lock := lock[r := false];
        return after, Released(r);
      }
      return Raised, Tau;
    }

    /** The next statement of a thread standing at `pc`; `next` is where it stands afterwards. */
    method Step(pc: Pc) returns (next: Pc, effect: Effect)
      requires Valid() && PcFits(pc, nRobot)
      modifies this
      ensures Valid() && nRobot == old(nRobot) && PcFits(next, nRobot)
      ensures Outcome(View(), next, effect) == Fire(old(View()), pc)
      ensures acquired == if effect.Acquired? then OneMore(old(acquired), effect.r) else old(acquired)
      ensures released == if effect.Released? then OneMore(old(released), effect.r) else old(released)
    {
      FireFits(View(), pc, nRobot);
      FireLocks(View(), pc);
      next, effect := Execute(pc);
      if effect.Acquired? { acquired := OneMore(acquired, effect.r); }
      if effect.Released? { released := OneMore(released, effect.r); }
    }

    method Execute(pc: Pc) returns (next: Pc, effect: Effect)
      requires |bIsWait| == |lock| == nRobot
      modifies this`nIsRun, this`nCurBit, this`bIsWait, this`lock
      ensures Outcome(View(), next, effect) == Fire(old(View()), pc)
    {
      next, effect := pc, Tau;
      match pc {
        case Idle =>
        case Raised =>
        case WaitFlag(r) =>
          if r >= nRobot { return Raised, Tau; }
          bIsWait := bIsWait[r := true];
          next := WaitAcquire(r);
        case WaitAcquire(r) =>
          if r >= nRobot { return Raised, Tau; }
          if !lock[r] {
            lock := lock[r := true];
            next, effect := WaitClear(r), Acquired(r);
          }
        case WaitClear(r) =>
          if r >= nRobot { return Raised, Tau; }
          bIsWait := bIsWait[r := false];
          next := Idle;
        case WakeHead(r) =>
          next := if nIsRun then WakeTest(r) else Idle;
        case WakeTest(r) =>
          if r >= nRobot { return Raised, Tau; }
          next := if bIsWait[r] then WakeRelease(r) else WakeHead(r);
        case WakeRelease(r) =>
          next, effect := ReleaseLock(r, Idle);
        case AllReset =>
          nCurBit := 0;
          next, effect := AllHead, Began;
        case AllHead =>
          next := if nIsRun then AllTest(0) else AllRelease(0);
        case AllTest(i) =>
          if i >= nRobot { return AllCompare, Tau; }
          if bIsWait[i] { next, effect := AllLoad(i), Saw(i); } else { next := AllTest(i + 1); }
        case AllLoad(i) =>
          next := AllStore(i, nCurBit);
        case AllStore(i, loaded) =>
          nCurBit := BitOr(loaded, Pow2(i));
          next := AllTest(i + 1);
        case AllCompare =>
          next := if nWaitBit == nCurBit then AllRelease(0) else AllHead;
        case AllRelease(i) =>
          if i >= nRobot { return Idle, SweepDone; }
          next, effect := ReleaseLock(i, AllRelease(i + 1));
      }
    }
  }

  // ---------- whole runs ----------

  datatype Op = Wait(r: nat) | WakeUp(r: nat) | WakeUpAll

  datatype Action = Call(t: nat, op: Op) | Run(t: nat) | CleanUp

  /** The object, its threads, and the history: completed acquisitions and releases per robot,
      the robots each thread saw waiting since its `WakeUpAll` began, and finished sweeps. */
  datatype System = System(
    shared: Shared, pcs: seq<Pc>, acquired: multiset<nat>, released: multiset<nat>,
    seen: seq<set<nat>>, sweeps: nat)

  function Entry(op: Op): Pc {
    match op
    case Wait(r) => WaitFlag(r)
    case WakeUp(r) => WakeHead(r)
    case WakeUpAll => AllReset
  }

  function Record(sys: System, t: nat, e: Effect): System
    requires t < |sys.seen|
  {
    match e
    case Tau => sys
    case Acquired(r) => sys.(acquired := OneMore(sys.acquired, r))
    case Released(r) => sys.(released := OneMore(sys.released, r))
    case Began => sys.(seen := sys.seen[t := {}])
    case Saw(i) => sys.(seen := sys.seen[t := sys.seen[t] + {i}])
    case SweepDone => sys.(sweeps := sys.sweeps + 1)
  }

  /** A thread starts a call only between calls; a raised thread is gone. */
  function Next(sys: System, a: Action): System {
    match a
    case CleanUp => sys.(shared := sys.shared.(nIsRun := false))
    case Call(t, op) =>
      if t < |sys.pcs| && sys.pcs[t] == Idle then sys.(pcs := sys.pcs[t := Entry(op)]) else sys
    case Run(t) =>
      if t < |sys.pcs| && t < |sys.seen| then
        var o := Fire(sys.shared, sys.pcs[t]);
        Record(sys.(shared := o.shared, pcs := sys.pcs[t := o.pc]), t, o.effect)
      else sys
  }

  function Start(robots: nat, threads: nat): System {
    System(Fresh(robots), seq(threads, _ => Idle), multiset{}, multiset{}, seq(threads, _ => {}), 0)
  }

  function RunFrom(sys: System, acts: seq<Action>): System
    decreases |acts|
  {
    if acts == [] then sys else RunFrom(Next(sys, acts[0]), acts[1..])
  }

  // ---------- any number of callers of anything ----------

  ghost predicate PcFits(pc: Pc, n: nat) {
    match pc
    case AllLoad(i) => i < n
    case AllStore(i, loaded) => i < n && MaskWithin(loaded, n)
    case _ => true
  }

  ghost predicate SharedFits(s: Shared, n: nat) {
    |s.bIsWait| == |s.locked| == n && s.nWaitBit == Pow2(n) - 1 && MaskWithin(s.nCurBit, n)
  }

  ghost predicate Conserved(s: Shared, acquired: multiset<nat>, released: multiset<nat>) {
    forall r | 0 <= r < |s.locked| :: acquired[r] == released[r] + if s.locked[r] then 1 else 0
  }

  ghost predicate Sound(sys: System) {
    && SharedFits(sys.shared, sys.shared.Robots())
    && |sys.seen| == |sys.pcs|
    && (forall t | 0 <= t < |sys.pcs| :: PcFits(sys.pcs[t], sys.shared.Robots()))
    && Conserved(sys.shared, sys.acquired, sys.released)
  }

  lemma StoreStaysWithin(loaded: nat, i: nat, n: nat)
    requires MaskWithin(loaded, n) && i < n
    ensures MaskWithin(BitOr(loaded, Pow2(i)), n)
  {
    forall k: nat | TestBit(BitOr(loaded, Pow2(i)), k) ensures k < n {
      OrIsUnion(loaded, Pow2(i), k);
      ShiftedOne(i, k);
    }
  }

  lemma FireFits(s: Shared, pc: Pc, n: nat)
    requires SharedFits(s, n) && PcFits(pc, n)
    ensures var o := Fire(s, pc); SharedFits(o.shared, n) && PcFits(o.pc, n)
  {
    match pc
    case AllStore(i, loaded) => StoreStaysWithin(loaded, i, n);
    case AllReset => forall k: nat ensures !TestBit(0, k) { ZeroHasNoBits(k); }
    case _ =>
  }

  /** How one step moves the locks, told by its effect alone. */
  lemma FireLocks(s: Shared, pc: Pc)
    requires |s.locked| == |s.bIsWait|
    ensures var o := Fire(s, pc);
      match o.effect
      case Acquired(r) => r < |s.locked| && !s.locked[r] && o.shared.locked == s.locked[r := true]
      case Released(r) => r < |s.locked| && s.locked[r] && o.shared.locked == s.locked[r := false]
      case _ => o.shared.locked == s.locked
  {
  }

  lemma NextSound(sys: System, a: Action)
    requires Sound(sys)
    ensures Sound(Next(sys, a)) && Next(sys, a).shared.Robots() == sys.shared.Robots()
  {
    if a.Run? && a.t < |sys.pcs| {
      FireFits(sys.shared, sys.pcs[a.t], sys.shared.Robots());
      FireLocks(sys.shared, sys.pcs[a.t]);
    }
  }

  lemma {:induction false} RunSound(sys: System, acts: seq<Action>)
    requires Sound(sys)
    ensures Sound(RunFrom(sys, acts)) && RunFrom(sys, acts).shared.Robots() == sys.shared.Robots()
    decreases |acts|
  {
    if acts != [] {
      NextSound(sys, acts[0]);
      RunSound(Next(sys, acts[0]), acts[1..]);
    }
  }

  lemma StartSound(robots: nat, threads: nat)
    ensures Sound(Start(robots, threads))
  {
    forall k: nat ensures !TestBit(0, k) { ZeroHasNoBits(k); }
  }

  /** Token conservation in every interleaving, whoever calls what: completed `Wait` acquisitions
      exceed completed releases by one exactly while the robot's lock is held. */
  lemma TokenConservation(robots: nat, threads: nat, acts: seq<Action>, r: nat)
    requires r < robots
    ensures var sys := RunFrom(Start(robots, threads), acts);
      && |sys.shared.locked| == robots
      && sys.acquired[r] == sys.released[r] + if sys.shared.locked[r] then 1 else 0
  {
    StartSound(robots, threads);
    RunSound(Start(robots, threads), acts);
  }

  /** The mask never leaves `0 .. 2^n - 1`, however many callers race on it. */
  lemma MaskAlwaysInRange(robots: nat, threads: nat, acts: seq<Action>)
    ensures RunFrom(Start(robots, threads), acts).shared.nCurBit <= Pow2(robots) - 1
  {
    StartSound(robots, threads);
    RunSound(Start(robots, threads), acts);
    BoundedMask(RunFrom(Start(robots, threads), acts).shared.nCurBit, robots);
  }

  // ---------- what the mask means ----------

  /** Only threads of `sweepers` ever call `WakeUpAll`; `WakeUp` and `Wait` stay free for all. */
  ghost predicate SweepersIn(acts: seq<Action>, sweepers: set<nat>) {
    forall k | 0 <= k < |acts| :: acts[k].Call? && acts[k].op.WakeUpAll? ==> acts[k].t in sweepers
  }

  ghost predicate SoleSweeper(acts: seq<Action>, w: nat) {
    SweepersIn(acts, {w})
  }

  predicate InSweep(pc: Pc) {
    pc.AllReset? || pc.AllHead? || pc.AllTest? || pc.AllLoad? || pc.AllStore? || pc.AllCompare? || pc.AllRelease?
  }

  /** Past the reset of the mask and outside the read-modify-write of one bit. */
  predicate Scanning(pc: Pc) {
    pc.AllHead? || pc.AllTest? || pc.AllCompare?
  }

  /** Between the reset of the mask and the end of the scan. */
  predicate UsesMask(pc: Pc) {
    Scanning(pc) || pc.AllLoad? || pc.AllStore?
  }

  /** No two threads use the mask at the same time. Sweeps of several threads may follow each other. */
  ghost predicate OneUsesMask(sys: System) {
    forall t, u | 0 <= t < u < |sys.pcs| :: !(UsesMask(sys.pcs[t]) && UsesMask(sys.pcs[u]))
  }

  ghost predicate OverlapFree(sys: System, acts: seq<Action>)
    decreases |acts|
  {
    OneUsesMask(sys) && (acts != [] ==> OverlapFree(Next(sys, acts[0]), acts[1..]))
  }

  /** The robot seen but not yet stored into the mask. */
  function Pending(pc: Pc): set<nat> {
    if pc.AllLoad? || pc.AllStore? then {pc.i} else {}
  }

  function AllRobots(n: nat): (all: set<nat>)
    ensures forall k: nat :: k in all <==> k < n
  {
    if n == 0 then {} else AllRobots(n - 1) + {n - 1}
  }

  ghost predicate Tracks(s: Shared, pc: Pc, seen: set<nat>) {
    && (UsesMask(pc) ==>
          && seen <= AllRobots(s.Robots())
          && (forall k: nat :: TestBit(s.nCurBit, k) ==> k in seen)
          && (forall k: nat :: k in seen && k !in Pending(pc) ==> TestBit(s.nCurBit, k))
          && (pc.AllStore? ==> pc.loaded == s.nCurBit)
          && Pending(pc) <= seen)
    && (pc.AllRelease? && s.nIsRun ==> seen == AllRobots(s.Robots()))
  }

  ghost predicate Refines(sys: System) {
    && Sound(sys) && OneUsesMask(sys)
    && (forall t | 0 <= t < |sys.pcs| :: Tracks(sys.shared, sys.pcs[t], sys.seen[t]))
  }

  /** The mask is full exactly when every robot was seen. */
  lemma FullExactlyWhenAllSeen(m: nat, seen: set<nat>, n: nat)
    requires seen <= AllRobots(n) && forall k: nat :: TestBit(m, k) <==> k in seen
    ensures m == Pow2(n) - 1 <==> seen == AllRobots(n)
  {
    forall k: nat ensures TestBit(Pow2(n) - 1, k) <==> k in AllRobots(n) { FullMask(n, k); }
    if seen == AllRobots(n) {
      SameBits(m, Pow2(n) - 1);
    } else {
      var k :| k in AllRobots(n) && k !in seen;
      assert TestBit(Pow2(n) - 1, k) && !TestBit(m, k);
    }
  }

  lemma OwnStepTracks(s: Shared, pc: Pc, seen: set<nat>)
    requires SharedFits(s, s.Robots()) && PcFits(pc, s.Robots()) && Tracks(s, pc, seen)
    ensures var o := Fire(s, pc);
      Tracks(o.shared, o.pc,
        match o.effect case Began => {} case Saw(i) => seen + {i} case _ => seen)
  {
    match pc
    case AllReset => forall k: nat ensures !TestBit(0, k) { ZeroHasNoBits(k); }
    case AllStore(i, loaded) =>
      forall k: nat
        ensures TestBit(BitOr(loaded, Pow2(i)), k) <==> TestBit(loaded, k) || k == i
      {
        OrIsUnion(loaded, Pow2(i), k);
        ShiftedOne(i, k);
      }
    case AllCompare => FullExactlyWhenAllSeen(s.nCurBit, seen, s.Robots());
    case _ =>
  }

  /** A step of a thread outside any sweep touches neither the mask nor `nIsRun`. */
  lemma OtherStepLeavesMask(s: Shared, pc: Pc)
    requires !InSweep(pc)
    ensures var o := Fire(s, pc);
      && !InSweep(o.pc) && !o.effect.Began? && !o.effect.Saw? && !o.effect.SweepDone?
      && o.shared.nCurBit == s.nCurBit && o.shared.nIsRun == s.nIsRun && o.shared.Robots() == s.Robots()
  {
  }

  /** Nor does the step of any thread that does not use the mask before or after it. */
  lemma StepOutsideScan(s: Shared, pc: Pc)
    requires |s.locked| == |s.bIsWait|
    ensures var o := Fire(s, pc);
      && o.shared.nIsRun == s.nIsRun && o.shared.Robots() == s.Robots()
      && (!UsesMask(pc) && !UsesMask(o.pc) ==> o.shared.nCurBit == s.nCurBit)
  {
  }

  /** Another thread's step keeps the refinement of thread `u`. */
  lemma OtherTracks(s: Shared, pc: Pc, u: Pc, seen: set<nat>)
    requires |s.locked| == |s.bIsWait| && Tracks(s, u, seen)
    requires UsesMask(u) ==> !UsesMask(pc) && !UsesMask(Fire(s, pc).pc)
    ensures Tracks(Fire(s, pc).shared, u, seen)
  {
    hide AllRobots, Fire;
    StepOutsideScan(s, pc);
  }

  lemma RunStepRefines(sys: System, t: nat)
    requires Refines(sys) && t < |sys.pcs| && OneUsesMask(Next(sys, Run(t)))
    ensures forall u | 0 <= u < |sys.pcs| ::
      var n := Next(sys, Run(t)); |n.pcs| == |n.seen| == |sys.pcs| && Tracks(n.shared, n.pcs[u], n.seen[u])
  {
    hide Tracks, Fire, UsesMask, SharedFits, PcFits, Conserved;
    var n := Next(sys, Run(t));
    forall u | 0 <= u < |sys.pcs| ensures |n.pcs| == |n.seen| == |sys.pcs| && Tracks(n.shared, n.pcs[u], n.seen[u]) {
      if u == t {
        OwnStepTracks(sys.shared, sys.pcs[t], sys.seen[t]);
      } else {
        SizesFit(sys);
        assert !(UsesMask(sys.pcs[t]) && UsesMask(sys.pcs[u]));
        assert !(UsesMask(n.pcs[t]) && UsesMask(n.pcs[u])) && n.pcs[u] == sys.pcs[u];
        OtherTracks(sys.shared, sys.pcs[t], sys.pcs[u], sys.seen[u]);
      }
    }
  }

  lemma SizesFit(sys: System)
    requires Sound(sys)
    ensures |sys.shared.locked| == |sys.shared.bIsWait| && |sys.seen| == |sys.pcs|
  {
  }

  lemma NextRefines(sys: System, a: Action)
    requires Refines(sys) && OneUsesMask(Next(sys, a))
    ensures Refines(Next(sys, a))
  {
    NextSound(sys, a);
    if a.Run? && a.t < |sys.pcs| {
      hide Sound, OneUsesMask, Tracks;
      SizesFit(sys);
      RunStepRefines(sys, a.t);
    }
  }

  lemma {:induction false} RunRefines(sys: System, acts: seq<Action>)
    requires Refines(sys) && OverlapFree(sys, acts)
    ensures Refines(RunFrom(sys, acts))
    decreases |acts|
  {
    hide Refines;
    if acts != [] {
      assert OverlapFree(Next(sys, acts[0]), acts[1..]);
      NextRefines(sys, acts[0]);
      RunRefines(Next(sys, acts[0]), acts[1..]);
    }
  }

  /** What the mask is meant to say while thread `w` scans: exactly the robots seen since its call
      began, full exactly when all were seen; and the scan ends (short of `CleanUp`) only then. */
  ghost predicate MaskMeansSeen(sys: System, w: nat)
    requires w < |sys.pcs| == |sys.seen|
  {
    && (Scanning(sys.pcs[w]) ==>
          && (forall k: nat :: TestBit(sys.shared.nCurBit, k) <==> k in sys.seen[w])
          && (sys.shared.nCurBit == sys.shared.nWaitBit <==> sys.seen[w] == AllRobots(sys.shared.Robots())))
    && (sys.pcs[w].AllRelease? && sys.shared.nIsRun ==> sys.seen[w] == AllRobots(sys.shared.Robots()))
  }

  /** The threads stay, and so do the robots. */
  lemma {:induction false} RunKeepsThreads(robots: nat, threads: nat, acts: seq<Action>)
    ensures var sys := RunFrom(Start(robots, threads), acts);
      Sound(sys) && |sys.pcs| == |sys.seen| == threads && sys.shared.Robots() == robots
  {
    StartSound(robots, threads);
    RunSound(Start(robots, threads), acts);
    RunKeepsPcs(Start(robots, threads), acts);
  }

  lemma {:induction false} RunKeepsPcs(sys: System, acts: seq<Action>)
    ensures |RunFrom(sys, acts).pcs| == |sys.pcs|
    decreases |acts|
  {
    if acts != [] { RunKeepsPcs(Next(sys, acts[0]), acts[1..]); }
  }

  /** In every interleaving in which scans do not overlap, the mask means what it should to every
      thread. */
  lemma MaskRefinesSeen(robots: nat, threads: nat, acts: seq<Action>, w: nat)
    requires w < threads && OverlapFree(Start(robots, threads), acts)
    ensures var sys := RunFrom(Start(robots, threads), acts);
      |sys.pcs| == |sys.seen| == threads && MaskMeansSeen(sys, w)
  {
    RunKeepsThreads(robots, threads, acts);
    StartRefines(robots, threads);
    RunRefines(Start(robots, threads), acts);
    var sys := RunFrom(Start(robots, threads), acts);
    if Scanning(sys.pcs[w]) {
      FullExactlyWhenAllSeen(sys.shared.nCurBit, sys.seen[w], robots);
    }
  }

  lemma StartRefines(robots: nat, threads: nat)
    ensures Refines(Start(robots, threads))
  {
    StartSound(robots, threads);
  }

  /** With one sweeper scans cannot overlap. */
  lemma {:induction false} SoleSweeperNeverOverlaps(sys: System, acts: seq<Action>, w: nat)
    requires SoleSweeper(acts, w) && forall t | 0 <= t < |sys.pcs| && t != w :: !InSweep(sys.pcs[t])
    ensures OverlapFree(sys, acts)
    decreases |acts|
  {
    if acts != [] {
      var a := acts[0];
      if a.Run? && a.t < |sys.pcs| && a.t != w { OtherStepLeavesMask(sys.shared, sys.pcs[a.t]); }
      SoleSweeperNeverOverlaps(Next(sys, a), acts[1..], w);
    }
  }

  /** While scans do not overlap, no step but a reset ever loses a bit. */
  lemma NoBitIsLost(robots: nat, threads: nat, acts: seq<Action>, a: Action, k: nat)
    requires OverlapFree(Start(robots, threads), acts)
    requires TestBit(RunFrom(Start(robots, threads), acts).shared.nCurBit, k)
    requires var sys := RunFrom(Start(robots, threads), acts);
      !(a.Run? && a.t < |sys.pcs| && sys.pcs[a.t].AllReset?)
    ensures TestBit(Next(RunFrom(Start(robots, threads), acts), a).shared.nCurBit, k)
  {
    StartRefines(robots, threads);
    RunRefines(Start(robots, threads), acts);
    var sys := RunFrom(Start(robots, threads), acts);
    if a.Run? && a.t < |sys.pcs| { OwnStepKeepsBit(sys.shared, sys.pcs[a.t], sys.seen[a.t], k); }
  }

  lemma OwnStepKeepsBit(s: Shared, pc: Pc, seen: set<nat>, k: nat)
    requires Tracks(s, pc, seen) && !pc.AllReset? && TestBit(s.nCurBit, k)
    ensures TestBit(Fire(s, pc).shared.nCurBit, k)
  {
    if pc.AllStore? { OrIsUnion(pc.loaded, Pow2(pc.i), k); }
  }

  // ---------- two threads that trade steps ----------

  /** Threads `u` and `w` stand at `pu` and `pw`; the mask is `mask`, the only flag that is up is
      `flag`'s, and the locks held are those of the robots from `lo` to `hi`. */
  ghost predicate Stage(sys: System, n: nat, u: nat, w: nat, pu: Pc, pw: Pc, mask: nat, flag: int, lo: nat, hi: nat) {
    && sys.shared.nIsRun && sys.shared.nWaitBit == Pow2(n) - 1 && sys.shared.nCurBit == mask
    && |sys.shared.bIsWait| == |sys.shared.locked| == n
    && |sys.seen| == |sys.pcs| && u < |sys.pcs| && w < |sys.pcs| && u != w
    && sys.pcs[u] == pu && sys.pcs[w] == pw
    && (forall j | 0 <= j < n :: sys.shared.bIsWait[j] == (j == flag))
    && (forall j | 0 <= j < n :: sys.shared.locked[j] == (lo <= j < hi))
  }

  /** One more action. */
  lemma Take(z: System, acts: seq<Action>, a: Action) returns (acts': seq<Action>)
    ensures acts' == acts + [a] && RunFrom(z, acts') == Next(RunFrom(z, acts), a)
  {
    acts' := acts + [a];
    RunConcat(z, acts, [a]);
    RunOne(RunFrom(z, acts), a);
  }

  lemma RunOne(sys: System, a: Action)
    ensures RunFrom(sys, [a]) == Next(sys, a)
  {
    assert RunFrom(sys, [a]) == RunFrom(Next(sys, a), [a][1..]);
  }

  /** Thread `w` waits for robot `i` while `u` scans it, up to the point where `u` has loaded the mask
      and `w` has not acquired the lock. */
  lemma SeesRobot(z: System, acts: seq<Action>, n: nat, u: nat, w: nat, i: nat) returns (acts': seq<Action>)
    requires OnlySweeps(acts, u) && i < n
    requires Stage(RunFrom(z, acts), n, u, w, AllTest(i), Idle, Pow2(i) - 1, -1, 0, i)
    ensures OnlySweeps(acts', u)
    ensures Stage(RunFrom(z, acts'), n, u, w, AllStore(i, Pow2(i) - 1), WaitAcquire(i), Pow2(i) - 1, i, 0, i)
  {
    hide RunFrom;
    acts' := Take(z, acts, Call(w, Wait(i)));
    assert Stage(RunFrom(z, acts'), n, u, w, AllTest(i), WaitFlag(i), Pow2(i) - 1, -1, 0, i);
    acts' := Take(z, acts', Run(w));
    assert Stage(RunFrom(z, acts'), n, u, w, AllTest(i), WaitAcquire(i), Pow2(i) - 1, i, 0, i);
    acts' := Take(z, acts', Run(u));
    assert Stage(RunFrom(z, acts'), n, u, w, AllLoad(i), WaitAcquire(i), Pow2(i) - 1, i, 0, i);
    acts' := Take(z, acts', Run(u));
  }

  /** Thread `w` finishes its wait. */
  lemma Acquires(z: System, acts: seq<Action>, n: nat, u: nat, w: nat, i: nat, pu: Pc, mask: nat)
    returns (acts': seq<Action>)
    requires OnlySweeps(acts, u) && i < n
    requires Stage(RunFrom(z, acts), n, u, w, pu, WaitAcquire(i), mask, i, 0, i)
    ensures OnlySweeps(acts', u)
    ensures Stage(RunFrom(z, acts'), n, u, w, pu, Idle, mask, -1, 0, i + 1)
  {
    hide RunFrom;
    acts' := Take(z, acts, Run(w));
    assert Stage(RunFrom(z, acts'), n, u, w, pu, WaitClear(i), mask, i, 0, i + 1);
    acts' := Take(z, acts', Run(w));
  }

  /** Thread `u` stores the mask. */
  lemma Stores(z: System, acts: seq<Action>, n: nat, u: nat, w: nat, i: nat, pw: Pc, mask: nat, flag: int, hi: nat)
    returns (acts': seq<Action>)
    requires Stage(RunFrom(z, acts), n, u, w, AllStore(i, Pow2(i) - 1), pw, mask, flag, 0, hi)
    ensures acts' == acts + [Run(u)] && (OnlySweeps(acts, u) ==> OnlySweeps(acts', u))
    ensures RunFrom(z, acts').seen == RunFrom(z, acts).seen
    ensures Stage(RunFrom(z, acts'), n, u, w, AllTest(i + 1), pw, Pow2(i + 1) - 1, flag, 0, hi)
  {
    hide RunFrom;
    GrowMask(i);
    acts' := Take(z, acts, Run(u));
  }

  /** Robots `0 .. i - 1` are seen one after the other; each passes its wait. */
  lemma {:induction false} SeesRobots(n: nat, threads: nat, u: nat, w: nat, i: nat) returns (acts: seq<Action>)
    requires i < n && u < threads && w < threads && u != w
    ensures OnlySweeps(acts, u)
    ensures Stage(RunFrom(Start(n, threads), acts), n, u, w, AllTest(i), Idle, Pow2(i) - 1, -1, 0, i)
  {
    hide Stage, OnlySweeps, RunFrom, Start;
    if i == 0 {
      acts := Opens(n, threads, u, w);
    } else {
      acts := SeesRobots(n, threads, u, w, i - 1);
      acts := Round(Start(n, threads), acts, n, u, w, i - 1);
    }
  }

  /** Robot `i` waits, is seen, passes its wait, and its bit is stored. */
  lemma Round(z: System, acts: seq<Action>, n: nat, u: nat, w: nat, i: nat) returns (acts': seq<Action>)
    requires OnlySweeps(acts, u) && i < n
    requires Stage(RunFrom(z, acts), n, u, w, AllTest(i), Idle, Pow2(i) - 1, -1, 0, i)
    ensures OnlySweeps(acts', u)
    ensures Stage(RunFrom(z, acts'), n, u, w, AllTest(i + 1), Idle, Pow2(i + 1) - 1, -1, 0, i + 1)
  {
    hide Stage, OnlySweeps, RunFrom;
    acts' := SeesRobot(z, acts, n, u, w, i);
    acts' := Acquires(z, acts', n, u, w, i, AllStore(i, Pow2(i) - 1), Pow2(i) - 1);
    acts' := Stores(z, acts', n, u, w, i, Idle, Pow2(i) - 1, -1, i + 1);
  }

  lemma Opens(n: nat, threads: nat, u: nat, w: nat) returns (acts: seq<Action>)
    requires u < threads && w < threads && u != w
    ensures OnlySweeps(acts, u)
    ensures Stage(RunFrom(Start(n, threads), acts), n, u, w, AllTest(0), Idle, Pow2(0) - 1, -1, 0, 0)
  {
    var z := Start(n, threads);
    assert Stage(RunFrom(z, []), n, u, w, Idle, Idle, 0, -1, 0, 0);
    hide RunFrom, Start;
    acts := Take(z, [], Call(u, WakeUpAll));
    assert Stage(RunFrom(z, acts), n, u, w, AllReset, Idle, 0, -1, 0, 0);
    acts := Take(z, acts, Run(u));
    assert Stage(RunFrom(z, acts), n, u, w, AllHead, Idle, 0, -1, 0, 0);
    acts := Take(z, acts, Run(u));
  }

  /** For any number of robots and any two threads: with two sweepers the mask loses its meaning.
      Thread `w` stops scanning although it saw no robot, because `u` stores into the mask what it read
      before `w`'s reset. */
  lemma TwoSweepersAreFooled(n: nat, threads: nat, u: nat, w: nat) returns (acts: seq<Action>)
    requires n >= 1 && u < threads && w < threads && u != w
    ensures SweepersIn(acts, {u, w})
    ensures var sys := RunFrom(Start(n, threads), acts);
      && w < |sys.pcs| == |sys.seen| && sys.pcs[w] == AllRelease(0) && sys.shared.nIsRun
      && sys.seen[w] == {} && !MaskMeansSeen(sys, w)
  {
    hide RunFrom, Start, Stage, OnlySweeps, SweepersIn, MaskMeansSeen;
    var z, last := Start(n, threads), n - 1;
    acts := SeesRobots(n, threads, u, w, last);
    acts := SeesRobot(z, acts, n, u, w, last);
    acts := Acquires(z, acts, n, u, w, last, AllStore(last, Pow2(last) - 1), Pow2(last) - 1);
    acts := SecondSweepStarts(z, acts, n, u, w, last);
    acts := FirstSweepStores(z, acts, n, u, w, last);
    acts := SecondSweepStops(z, acts, n, u, w);
    StopIsWrong(RunFrom(z, acts), n, u, w);
  }

  lemma StopIsWrong(sys: System, n: nat, u: nat, w: nat)
    requires n >= 1 && Stage(sys, n, u, w, AllTest(n), AllRelease(0), Pow2(n) - 1, -1, 0, n) && sys.seen[w] == {}
    ensures w < |sys.pcs| == |sys.seen| && sys.pcs[w] == AllRelease(0) && sys.shared.nIsRun && !MaskMeansSeen(sys, w)
  {
    assert 0 in AllRobots(n);
  }

  lemma FirstSweepStores(z: System, acts: seq<Action>, n: nat, u: nat, w: nat, last: nat) returns (acts': seq<Action>)
    requires SweepersIn(acts, {u, w}) && n == last + 1
    requires Stage(RunFrom(z, acts), n, u, w, AllStore(last, Pow2(last) - 1), AllHead, 0, -1, 0, n)
    requires RunFrom(z, acts).seen[w] == {}
    ensures SweepersIn(acts', {u, w})
    ensures Stage(RunFrom(z, acts'), n, u, w, AllTest(n), AllHead, Pow2(n) - 1, -1, 0, n)
    ensures RunFrom(z, acts').seen[w] == {}
  {
    hide RunFrom;
    acts' := Stores(z, acts, n, u, w, last, AllHead, 0, -1, n);
  }

  lemma SecondSweepStarts(z: System, acts: seq<Action>, n: nat, u: nat, w: nat, last: nat) returns (acts': seq<Action>)
    requires OnlySweeps(acts, u)
    requires Stage(RunFrom(z, acts), n, u, w, AllStore(last, Pow2(last) - 1), Idle, Pow2(last) - 1, -1, 0, n)
    ensures SweepersIn(acts', {u, w})
    ensures Stage(RunFrom(z, acts'), n, u, w, AllStore(last, Pow2(last) - 1), AllHead, 0, -1, 0, n)
    ensures RunFrom(z, acts').seen[w] == {}
  {
    hide RunFrom;
    acts' := Take(z, acts, Call(w, WakeUpAll));
    assert Stage(RunFrom(z, acts'), n, u, w, AllStore(last, Pow2(last) - 1), AllReset, Pow2(last) - 1, -1, 0, n);
    acts' := Take(z, acts', Run(w));
  }

  /** Thread `w` scans `k` robots and sees none. */
  lemma {:induction false} ScansInVain(z: System, acts: seq<Action>, n: nat, u: nat, w: nat, k: nat)
    returns (acts': seq<Action>)
    requires SweepersIn(acts, {u, w}) && k <= n
    requires Stage(RunFrom(z, acts), n, u, w, AllTest(n), AllTest(0), Pow2(n) - 1, -1, 0, n)
    requires RunFrom(z, acts).seen[w] == {}
    ensures SweepersIn(acts', {u, w})
    ensures Stage(RunFrom(z, acts'), n, u, w, AllTest(n), AllTest(k), Pow2(n) - 1, -1, 0, n)
    ensures RunFrom(z, acts').seen[w] == {}
  {
    hide RunFrom;
    acts' := acts;
    if k > 0 {
      acts' := ScansInVain(z, acts, n, u, w, k - 1);
      acts' := Take(z, acts', Run(w));
    }
  }

  lemma SecondSweepStops(z: System, acts: seq<Action>, n: nat, u: nat, w: nat) returns (acts': seq<Action>)
    requires SweepersIn(acts, {u, w})
    requires Stage(RunFrom(z, acts), n, u, w, AllTest(n), AllHead, Pow2(n) - 1, -1, 0, n)
    requires RunFrom(z, acts).seen[w] == {}
    ensures SweepersIn(acts', {u, w})
    ensures Stage(RunFrom(z, acts'), n, u, w, AllTest(n), AllRelease(0), Pow2(n) - 1, -1, 0, n)
    ensures RunFrom(z, acts').seen[w] == {}
  {
    hide RunFrom;
    acts' := Take(z, acts, Run(w));
    acts' := ScansInVain(z, acts', n, u, w, n);
    acts' := Take(z, acts', Run(w));
    assert Stage(RunFrom(z, acts'), n, u, w, AllTest(n), AllCompare, Pow2(n) - 1, -1, 0, n);
    assert RunFrom(z, acts').seen[w] == {};
    acts' := Take(z, acts', Run(w));
  }

  /** The mask means what it should in every run whose sweepers are among `sweepers`, for each of them,
      if and only if there is at most one. */
  lemma MaskIsSafeExactlyWhenOneSweeps(n: nat, threads: nat, sweepers: set<nat>)
    requires n >= 1 && forall t | t in sweepers :: t < threads
    ensures (forall acts, w | SweepersIn(acts, sweepers) && w in sweepers :: AlwaysMeansSeen(n, threads, acts, w)) <==>
      |sweepers| <= 1
  {
    if |sweepers| <= 1 {
      forall acts, w | SweepersIn(acts, sweepers) && w in sweepers ensures AlwaysMeansSeen(n, threads, acts, w) {
        OnlyElement(sweepers, w);
        SoleSweeperNeverOverlaps(Start(n, threads), acts, w);
        MaskRefinesSeen(n, threads, acts, w);
      }
    } else {
      var u, w := TwoElements(sweepers);
      var acts := TwoSweepersAreFooled(n, threads, u, w);
      assert SweepersIn(acts, sweepers) && w in sweepers && !AlwaysMeansSeen(n, threads, acts, w);
    }
  }

  ghost predicate AlwaysMeansSeen(n: nat, threads: nat, acts: seq<Action>, w: nat) {
    var sys := RunFrom(Start(n, threads), acts);
    w < |sys.pcs| == |sys.seen| && MaskMeansSeen(sys, w)
  }

  lemma OnlyElement(s: set<nat>, w: nat)
    requires w in s && |s| <= 1
    ensures s == {w}
  {
    assert |s - {w}| == 0;
  }

  lemma TwoElements(s: set<nat>) returns (u: nat, w: nat)
    requires |s| > 1
    ensures u in s && w in s && u != w
  {
    u :| u in s;
    assert |s - {u}| >= 1;
    w :| w in s - {u};
  }

  lemma {:induction false} RunConcat(sys: System, first: seq<Action>, second: seq<Action>)
    ensures RunFrom(sys, first + second) == RunFrom(RunFrom(sys, first), second)
    decreases |first|
  {
    if first == [] {
      assert first + second == second;
    } else {
      assert (first + second)[1..] == first[1..] + second;
      RunConcat(Next(sys, first[0]), first[1..], second);
    }
  }

  // ---------- the rendezvous: one sweeper, no single wake-ups ----------

  ghost predicate OnlySweeps(acts: seq<Action>, w: nat) {
    SoleSweeper(acts, w) && forall k | 0 <= k < |acts| :: acts[k].Call? ==> !acts[k].op.WakeUp?
  }

  predicate InWakeUp(pc: Pc) {
    pc.WakeHead? || pc.WakeTest? || pc.WakeRelease?
  }

  /** Robots already released in the sweep under way. */
  function Swept(pc: Pc, r: nat): nat {
    if pc.AllRelease? && r < pc.i then 1 else 0
  }

  ghost predicate InStep(sys: System, w: nat) {
    && Sound(sys) && w < |sys.pcs|
    && (forall t | 0 <= t < |sys.pcs| :: !InWakeUp(sys.pcs[t]) && (t != w ==> !InSweep(sys.pcs[t])))
    && (sys.pcs[w].AllRelease? ==> sys.pcs[w].i <= sys.shared.Robots())
    && Level(sys.shared.Robots(), sys.pcs[w], sys.released, sys.sweeps)
  }

  /** Every robot was released once a sweep, and the robots before the sweeper's cursor once more. */
  ghost predicate Level(n: nat, pc: Pc, released: multiset<nat>, sweeps: nat) {
    pc != Raised ==> forall r: nat | r < n :: released[r] == sweeps + Swept(pc, r)
  }

  lemma OwnStepLevel(s: Shared, pc: Pc, released: multiset<nat>, sweeps: nat)
    requires |s.locked| == s.Robots() && !InWakeUp(pc) && Level(s.Robots(), pc, released, sweeps)
    requires pc.AllRelease? ==> pc.i <= s.Robots()
    ensures var o := Fire(s, pc);
      && Level(s.Robots(), o.pc,
           if o.effect.Released? then OneMore(released, o.effect.r) else released,
           if o.effect.SweepDone? then sweeps + 1 else sweeps)
      && (o.pc.AllRelease? ==> o.pc.i <= s.Robots())
  {
    SweepEffects(s, pc);
  }

  /** Which effects a thread that never calls `WakeUp` can have on the release counts. */
  lemma SweepEffects(s: Shared, pc: Pc)
    requires !InWakeUp(pc) && |s.locked| == |s.bIsWait|
    ensures var o := Fire(s, pc);
      && !InWakeUp(o.pc)
      && (InSweep(o.pc) ==> InSweep(pc))
      && (o.effect.Released? ==>
            pc == AllRelease(o.effect.r) && o.pc == AllRelease(o.effect.r + 1) && o.effect.r < |s.locked|)
      && (o.effect.SweepDone? ==> pc.AllRelease? && pc.i >= |s.locked| && o.pc == Idle)
      && (o.pc.AllRelease? && !o.effect.Released? ==> o.pc.i == 0)
      && (pc.AllRelease? ==> o.effect.Released? || o.effect.SweepDone? || o.pc == Raised)
  {
  }

  lemma RunStepInStep(sys: System, t: nat, w: nat)
    requires InStep(sys, w) && t < |sys.pcs|
    ensures InStep(Next(sys, Run(t)), w)
  {
    hide SharedFits, PcFits, Conserved, Fire, Level;
    NextSound(sys, Run(t));
    SizesFit(sys);
    SweepEffects(sys.shared, sys.pcs[t]);
    StepOutsideScan(sys.shared, sys.pcs[t]);
    if t == w {
      OwnStepLevel(sys.shared, sys.pcs[w], sys.released, sys.sweeps);
    } else {
      OtherStepLeavesMask(sys.shared, sys.pcs[t]);
    }
  }

  lemma NextInStep(sys: System, a: Action, w: nat)
    requires InStep(sys, w)
    requires a.Call? ==> !a.op.WakeUp? && (a.op.WakeUpAll? ==> a.t == w)
    ensures InStep(Next(sys, a), w)
  {
    hide SharedFits, PcFits, Conserved, Fire;
    NextSound(sys, a);
    if a.Run? && a.t < |sys.pcs| { RunStepInStep(sys, a.t, w); }
  }

  lemma {:induction false} RunInStep(sys: System, acts: seq<Action>, w: nat)
    requires InStep(sys, w) && OnlySweeps(acts, w)
    ensures InStep(RunFrom(sys, acts), w)
    decreases |acts|
  {
    if acts != [] {
      NextInStep(sys, acts[0], w);
      RunInStep(Next(sys, acts[0]), acts[1..], w);
    }
  }

  /** The rendezvous, in every interleaving: between sweeps every robot has passed `Wait` exactly
      as often as there were finished sweeps or once more, so any two robots differ by at most one;
      while a sweep is releasing they differ by at most two. */
  lemma RobotsStayInStep(robots: nat, threads: nat, acts: seq<Action>, w: nat, r: nat, q: nat)
    requires w < threads && OnlySweeps(acts, w) && r < robots && q < robots
    requires var sys := RunFrom(Start(robots, threads), acts); w < |sys.pcs| && sys.pcs[w] != Raised
    ensures var sys := RunFrom(Start(robots, threads), acts);
      && w < |sys.pcs|
      && sys.sweeps <= sys.acquired[r] <= sys.sweeps + (if sys.pcs[w].AllRelease? then 2 else 1)
      && (!sys.pcs[w].AllRelease? ==> sys.acquired[r] <= sys.acquired[q] + 1)
  {
    StartSound(robots, threads);
    RunInStep(Start(robots, threads), acts, w);
    TokenConservation(robots, threads, acts, r);
    TokenConservation(robots, threads, acts, q);
  }

  /** Whoever releases robot `i`, and however the threads interleave: the release raises exactly when
      every acquisition of that robot has been released already. */
  lemma ReleaseRaisesExactlyWhen(robots: nat, threads: nat, acts: seq<Action>, t: nat, i: nat)
    requires i < robots && t < |RunFrom(Start(robots, threads), acts).pcs|
    requires RunFrom(Start(robots, threads), acts).pcs[t] in {AllRelease(i), WakeRelease(i)}
    ensures var sys := RunFrom(Start(robots, threads), acts);
      Fire(sys.shared, sys.pcs[t]).pc == Raised <==> sys.acquired[i] == sys.released[i]
  {
    TokenConservation(robots, threads, acts, i);
  }

  /** When the sweep raises: releasing robot `i` fails exactly when that robot has not passed `Wait`
      since the last sweep. Having been seen waiting is not enough. */
  lemma SweepRaisesExactlyWhen(robots: nat, threads: nat, acts: seq<Action>, w: nat, i: nat)
    requires w < threads && OnlySweeps(acts, w) && i < robots
    requires w < |RunFrom(Start(robots, threads), acts).pcs|
    requires RunFrom(Start(robots, threads), acts).pcs[w] == AllRelease(i)
    ensures var sys := RunFrom(Start(robots, threads), acts);
      Fire(sys.shared, sys.pcs[w]).pc == Raised <==> sys.acquired[i] == sys.sweeps
  {
    StartSound(robots, threads);
    RunInStep(Start(robots, threads), acts, w);
    TokenConservation(robots, threads, acts, i);
  }

  /** And it does happen, for any number of robots and any two threads: locks start free and a robot
      raises its flag before it acquires, so a sweep that saw every robot waiting can still release a
      free lock. */
  lemma FirstSweepCanRaise(n: nat, threads: nat, u: nat, w: nat) returns (acts: seq<Action>)
    requires n >= 1 && u < threads && w < threads && u != w
    ensures OnlySweeps(acts, u)
    ensures var sys := RunFrom(Start(n, threads), acts);
      u < |sys.pcs| == |sys.seen| && sys.pcs[u] == Raised && sys.seen[u] == AllRobots(n)
  {
    hide RunFrom, Start, Stage, OnlySweeps;
    var z, last := Start(n, threads), n - 1;
    acts := SeesRobots(n, threads, u, w, last);
    acts := SeesRobot(z, acts, n, u, w, last);
    acts := Stores(z, acts, n, u, w, last, WaitAcquire(last), Pow2(last) - 1, last, last);
    acts := SweepStops(z, acts, n, u, w);
    acts := Releases(z, acts, n, u, w, last);
    acts := LastReleaseRaises(n, threads, acts, u, w);
  }

  lemma SweepStops(z: System, acts: seq<Action>, n: nat, u: nat, w: nat) returns (acts': seq<Action>)
    requires n >= 1 && OnlySweeps(acts, u)
    requires Stage(RunFrom(z, acts), n, u, w, AllTest(n), WaitAcquire(n - 1), Pow2(n) - 1, n - 1, 0, n - 1)
    ensures OnlySweeps(acts', u)
    ensures Stage(RunFrom(z, acts'), n, u, w, AllRelease(0), WaitAcquire(n - 1), Pow2(n) - 1, n - 1, 0, n - 1)
  {
    hide RunFrom;
    acts' := Take(z, acts, Run(u));
    assert Stage(RunFrom(z, acts'), n, u, w, AllCompare, WaitAcquire(n - 1), Pow2(n) - 1, n - 1, 0, n - 1);
    acts' := Take(z, acts', Run(u));
  }

  lemma LastReleaseRaises(n: nat, threads: nat, acts: seq<Action>, u: nat, w: nat) returns (acts': seq<Action>)
    requires n >= 1 && u < threads && OnlySweeps(acts, u)
    requires var sys, last := RunFrom(Start(n, threads), acts), n - 1;
      Stage(sys, n, u, w, AllRelease(last), WaitAcquire(last), Pow2(n) - 1, last, last, last)
    ensures OnlySweeps(acts', u)
    ensures var sys := RunFrom(Start(n, threads), acts');
      u < |sys.pcs| == |sys.seen| && sys.pcs[u] == Raised && sys.seen[u] == AllRobots(n)
  {
    hide RunFrom, OverlapFree;
    SoleSweeperNeverOverlaps(Start(n, threads), acts, u);
    MaskRefinesSeen(n, threads, acts, u);
    acts' := Take(Start(n, threads), acts, Run(u));
  }

  /** Thread `u` releases the first `k` robots. */
  lemma {:induction false} Releases(z: System, acts: seq<Action>, n: nat, u: nat, w: nat, k: nat)
    returns (acts': seq<Action>)
    requires OnlySweeps(acts, u) && k < n
    requires Stage(RunFrom(z, acts), n, u, w, AllRelease(0), WaitAcquire(n - 1), Pow2(n) - 1, n - 1, 0, n - 1)
    ensures OnlySweeps(acts', u)
    ensures Stage(RunFrom(z, acts'), n, u, w, AllRelease(k), WaitAcquire(n - 1), Pow2(n) - 1, n - 1, k, n - 1)
  {
    hide RunFrom;
    acts' := acts;
    if k > 0 {
      acts' := Releases(z, acts, n, u, w, k - 1);
      acts' := Take(z, acts', Run(u));
    }
  }

  // ---------- what a call does that runs alone ----------

  lemma RunSnoc(z: System, acts: seq<Action>)
    requires acts != []
    ensures RunFrom(z, acts) == Next(RunFrom(z, acts[..|acts| - 1]), acts[|acts| - 1])
  {
    hide RunFrom, Next;
    var front, a := acts[..|acts| - 1], acts[|acts| - 1];
    assert acts == front + [a];
    RunConcat(z, front, [a]);
    RunOne(RunFrom(z, front), a);
  }

  /** At point `k` of the run thread `t` found robot `r`'s flag up in `WakeUp`, and it has stood before the
      release ever since. */
  ghost predicate FoundFlagUp(robots: nat, threads: nat, acts: seq<Action>, t: nat, r: nat, k: nat)
    requires k < |acts|
  {
    var sys := RunFrom(Start(robots, threads), acts[..k]);
    && t < |sys.pcs| && sys.pcs[t] == WakeTest(r) && r < |sys.shared.bIsWait| && sys.shared.bIsWait[r]
    && forall j | k < j <= |acts| ::
         var later := RunFrom(Start(robots, threads), acts[..j]); t < |later.pcs| && later.pcs[t] == WakeRelease(r)
  }

  /** In every interleaving of any calls, a `WakeUp` that is about to release a robot has found that
      robot's flag up in the same call. */
  lemma {:induction false} WakeUpSawWaiting(robots: nat, threads: nat, acts: seq<Action>, t: nat, r: nat)
    returns (k: nat)
    requires t < |RunFrom(Start(robots, threads), acts).pcs|
    requires RunFrom(Start(robots, threads), acts).pcs[t] == WakeRelease(r)
    ensures k < |acts| && FoundFlagUp(robots, threads, acts, t, r, k)
    decreases |acts|
  {
    var z := Start(robots, threads);
    assert acts != [];
    hide RunFrom, Start, Next;
    var front := acts[..|acts| - 1];
    RunSnoc(z, acts);
    assert acts[..|acts|] == acts;
    var before := RunFrom(z, front);
    CameFrom(before, acts[|acts| - 1], t, r);
    if before.pcs[t] == WakeRelease(r) {
      k := WakeUpSawWaiting(robots, threads, front, t, r);
      StillBefore(robots, threads, acts, t, r, k);
    } else {
      k := |front|;
    }
  }

  lemma StillBefore(robots: nat, threads: nat, acts: seq<Action>, t: nat, r: nat, k: nat)
    requires k + 1 < |acts| && t < |RunFrom(Start(robots, threads), acts).pcs|
    requires RunFrom(Start(robots, threads), acts).pcs[t] == WakeRelease(r)
    requires FoundFlagUp(robots, threads, acts[..|acts| - 1], t, r, k)
    ensures FoundFlagUp(robots, threads, acts, t, r, k)
  {
    hide RunFrom, Start;
    var front := acts[..|acts| - 1];
    assert forall j | 0 <= j <= |front| :: front[..j] == acts[..j];
    assert acts[..|acts|] == acts;
  }

  /** A thread gets before the release only from a test that found the flag up. */
  lemma CameFrom(sys: System, a: Action, t: nat, r: nat)
    requires t < |Next(sys, a).pcs| && Next(sys, a).pcs[t] == WakeRelease(r)
    ensures t < |sys.pcs|
    ensures sys.pcs[t] == WakeRelease(r)
         || (sys.pcs[t] == WakeTest(r) && r < |sys.shared.bIsWait| && sys.shared.bIsWait[r])
  {
    hide BitOr, Pow2;
  }

  /** Thread `t` runs `k` statements. */
  function Alone(sys: System, t: nat, k: nat): System {
    if k == 0 then sys else Next(Alone(sys, t, k - 1), Run(t))
  }

  /** The system in which thread `t` stands at `pc`, with these flags, locks and counts. */
  function With(
    sys: System, t: nat, pc: Pc, flags: seq<bool>, locks: seq<bool>, acq: multiset<nat>, rel: multiset<nat>): System
    requires t < |sys.pcs|
  {
    System(sys.shared.(bIsWait := flags, locked := locks), sys.pcs[t := pc], acq, rel, sys.seen, sys.sweeps)
  }

  lemma Begins(sys: System, t: nat, op: Op)
    requires t < |sys.pcs| && sys.pcs[t] == Idle
    ensures Alone(Next(sys, Call(t, op)), t, 0)
         == With(sys, t, Entry(op), sys.shared.bIsWait, sys.shared.locked, sys.acquired, sys.released)
  {
  }

  /** One statement of a thread that works on flags and locks only. */
  lemma Continues(
    sys: System, t: nat, pc: Pc, flags: seq<bool>, locks: seq<bool>, acq: multiset<nat>, rel: multiset<nat>)
    requires t < |sys.pcs| == |sys.seen| && !InSweep(pc)
    ensures var n := With(sys, t, pc, flags, locks, acq, rel);
            var o := Fire(n.shared, pc);
      Next(n, Run(t)) == With(sys, t, o.pc, o.shared.bIsWait, o.shared.locked,
        if o.effect.Acquired? then OneMore(acq, o.effect.r) else acq,
        if o.effect.Released? then OneMore(rel, o.effect.r) else rel)
  {
    OtherStepLeavesMask(sys.shared.(bIsWait := flags, locked := locks), pc);
    var n := With(sys, t, pc, flags, locks, acq, rel);
    var o := Fire(n.shared, pc);
    assert n.pcs[t := o.pc] == sys.pcs[t := o.pc];
    assert o.shared == sys.shared.(bIsWait := o.shared.bIsWait, locked := o.shared.locked);
  }

  /** `WakeUp(r)` alone, while running: if the robot waits and its lock is held it releases the lock. */
  lemma WakeUpReleases(sys: System, t: nat, r: nat)
    requires Sound(sys) && t < |sys.pcs| && sys.pcs[t] == Idle && r < sys.shared.Robots()
    requires sys.shared.nIsRun && sys.shared.bIsWait[r] && sys.shared.locked[r]
    ensures var locks, rel := sys.shared.locked[r := false], OneMore(sys.released, r);
      Alone(Next(sys, Call(t, WakeUp(r))), t, 3) == With(sys, t, Idle, sys.shared.bIsWait, locks, sys.acquired, rel)
  {
    var flags, locks, acq, rel := sys.shared.bIsWait, sys.shared.locked, sys.acquired, sys.released;
    var n := Next(sys, Call(t, WakeUp(r)));
    SizesFit(sys);
    Begins(sys, t, WakeUp(r));
    AloneNext(n, t, 0);
    AloneNext(n, t, 1);
    AloneNext(n, t, 2);
    hide Sound, With, Next, Alone;
    Continues(sys, t, WakeHead(r), flags, locks, acq, rel);
    assert Alone(n, t, 1) == With(sys, t, WakeTest(r), flags, locks, acq, rel);
    Continues(sys, t, WakeTest(r), flags, locks, acq, rel);
    assert Alone(n, t, 2) == With(sys, t, WakeRelease(r), flags, locks, acq, rel);
    Continues(sys, t, WakeRelease(r), flags, locks, acq, rel);
  }

  /** Thread `t` looks for robot `r`'s flag, and nothing else has changed. */
  ghost predicate LooksFor(sys: System, n: System, t: nat, r: nat)
    requires t < |sys.pcs|
  {
    || n == With(sys, t, WakeHead(r), sys.shared.bIsWait, sys.shared.locked, sys.acquired, sys.released)
    || n == With(sys, t, WakeTest(r), sys.shared.bIsWait, sys.shared.locked, sys.acquired, sys.released)
  }

  /** If the robot does not wait, it keeps looking and releases nothing, however long it runs. */
  lemma {:induction false} WakeUpWaitsForFlag(sys: System, t: nat, r: nat, k: nat)
    requires Sound(sys) && t < |sys.pcs| && sys.pcs[t] == Idle && r < sys.shared.Robots()
    requires sys.shared.nIsRun && !sys.shared.bIsWait[r]
    ensures LooksFor(sys, Alone(Next(sys, Call(t, WakeUp(r))), t, k), t, r)
  {
    hide Alone, With, Next, LooksFor;
    var z := Next(sys, Call(t, WakeUp(r)));
    if k == 0 {
      StartsLooking(sys, t, r);
    } else {
      WakeUpWaitsForFlag(sys, t, r, k - 1);
      AloneNext(z, t, k - 1);
      LooksOn(sys, Alone(z, t, k - 1), t, r);
    }
  }

  lemma StartsLooking(sys: System, t: nat, r: nat)
    requires t < |sys.pcs| && sys.pcs[t] == Idle
    ensures LooksFor(sys, Alone(Next(sys, Call(t, WakeUp(r))), t, 0), t, r)
  {
    hide Alone;
    Begins(sys, t, WakeUp(r));
  }

  lemma LooksOn(sys: System, n: System, t: nat, r: nat)
    requires Sound(sys) && t < |sys.pcs| && r < sys.shared.Robots() && sys.shared.nIsRun && !sys.shared.bIsWait[r]
    requires LooksFor(sys, n, t, r)
    ensures LooksFor(sys, Next(n, Run(t)), t, r)
  {
    SizesFit(sys);
    hide Sound, Next;
    Continues(sys, t, WakeHead(r), sys.shared.bIsWait, sys.shared.locked, sys.acquired, sys.released);
    Continues(sys, t, WakeTest(r), sys.shared.bIsWait, sys.shared.locked, sys.acquired, sys.released);
  }

  /** After `CleanUp` it returns at once and releases nothing. */
  lemma WakeUpGivesUp(sys: System, t: nat, r: nat)
    requires Sound(sys) && t < |sys.pcs| && sys.pcs[t] == Idle && !sys.shared.nIsRun
    ensures Alone(Next(sys, Call(t, WakeUp(r))), t, 1) == sys
  {
    SizesFit(sys);
    Begins(sys, t, WakeUp(r));
    Continues(sys, t, WakeHead(r), sys.shared.bIsWait, sys.shared.locked, sys.acquired, sys.released);
    assert sys.pcs[t := Idle] == sys.pcs;
    hide Sound, Next;
  }

  /** `Wait(r)` alone on a free lock returns holding it, with the flag down again. */
  lemma WaitPasses(sys: System, t: nat, r: nat)
    requires Sound(sys) && t < |sys.pcs| && sys.pcs[t] == Idle && r < sys.shared.Robots() && !sys.shared.locked[r]
    ensures var flags, locks := sys.shared.bIsWait[r := false], sys.shared.locked[r := true];
            var acq := OneMore(sys.acquired, r);
      Alone(Next(sys, Call(t, Wait(r))), t, 3) == With(sys, t, Idle, flags, locks, acq, sys.released)
  {
    var flags, locks, acq, rel := sys.shared.bIsWait, sys.shared.locked, sys.acquired, sys.released;
    var n := Next(sys, Call(t, Wait(r)));
    SizesFit(sys);
    Begins(sys, t, Wait(r));
    AloneNext(n, t, 0);
    AloneNext(n, t, 1);
    AloneNext(n, t, 2);
    assert flags[r := true][r := false] == flags[r := false];
    hide Sound, With, Next, Alone;
    Continues(sys, t, WaitFlag(r), flags, locks, acq, rel);
    assert Alone(n, t, 1) == With(sys, t, WaitAcquire(r), flags[r := true], locks, acq, rel);
    Continues(sys, t, WaitAcquire(r), flags[r := true], locks, acq, rel);
    assert Alone(n, t, 2) == With(sys, t, WaitClear(r), flags[r := true], locks[r := true], OneMore(acq, r), rel);
    Continues(sys, t, WaitClear(r), flags[r := true], locks[r := true], OneMore(acq, r), rel);
  }

  /** On a held lock it stays before the lock with its flag up, however long it runs. */
  lemma {:induction false} WaitBlocks(sys: System, t: nat, r: nat, k: nat)
    requires Sound(sys) && t < |sys.pcs| && sys.pcs[t] == Idle
    requires r < sys.shared.Robots() && sys.shared.locked[r] && k > 0
    ensures Alone(Next(sys, Call(t, Wait(r))), t, k)
         == With(sys, t, WaitAcquire(r), sys.shared.bIsWait[r := true], sys.shared.locked, sys.acquired, sys.released)
  {
    var z := Next(sys, Call(t, Wait(r)));
    AloneNext(z, t, k - 1);
    Begins(sys, t, Wait(r));
    hide Alone, With, Next;
    if k > 1 {
      WaitBlocks(sys, t, r, k - 1);
      StaysBlocked(sys, t, r);
    } else {
      ComesToLock(sys, t, r);
    }
  }

  lemma ComesToLock(sys: System, t: nat, r: nat)
    requires Sound(sys) && t < |sys.pcs| && r < sys.shared.Robots()
    ensures Next(With(sys, t, WaitFlag(r), sys.shared.bIsWait, sys.shared.locked, sys.acquired, sys.released), Run(t))
         == With(sys, t, WaitAcquire(r), sys.shared.bIsWait[r := true], sys.shared.locked, sys.acquired, sys.released)
  {
    SizesFit(sys);
    hide Sound, With, Next;
    Continues(sys, t, WaitFlag(r), sys.shared.bIsWait, sys.shared.locked, sys.acquired, sys.released);
  }

  lemma StaysBlocked(sys: System, t: nat, r: nat)
    requires Sound(sys) && t < |sys.pcs| && r < sys.shared.Robots() && sys.shared.locked[r]
    ensures var flags := sys.shared.bIsWait[r := true];
            var n := With(sys, t, WaitAcquire(r), flags, sys.shared.locked, sys.acquired, sys.released);
      Next(n, Run(t)) == n
  {
    SizesFit(sys);
    hide Sound, With, Next;
    Continues(sys, t, WaitAcquire(r), sys.shared.bIsWait[r := true], sys.shared.locked, sys.acquired, sys.released);
  }

  /** A sweep under way: thread `t` stands at `pc`, the mask is `mask`, and the robots before `lo` have
      been released once more than in `sys`. */
  ghost predicate Sweeps(sys: System, n: System, t: nat, pc: Pc, mask: nat, lo: nat) {
    && t < |sys.pcs| == |n.seen| && n.pcs == sys.pcs[t := pc] && n.acquired == sys.acquired && n.sweeps == sys.sweeps
    && |n.shared.locked| == |sys.shared.locked|
    && n.shared == sys.shared.(nCurBit := mask, locked := n.shared.locked)
    && (forall r | 0 <= r < |sys.shared.locked| :: n.shared.locked[r] == (r >= lo && sys.shared.locked[r]))
    && (forall r: nat :: n.released[r] == sys.released[r] + if r < lo then 1 else 0)
  }

  /** A sweep has been finished that released every robot exactly once and changed nothing else but the
      mask. */
  ghost predicate AllReleased(sys: System, n: System) {
    && n.pcs == sys.pcs && n.sweeps == sys.sweeps + 1 && n.acquired == sys.acquired
    && n.shared.bIsWait == sys.shared.bIsWait && |n.shared.locked| == sys.shared.Robots()
    && (forall r | 0 <= r < sys.shared.Robots() :: !n.shared.locked[r])
    && (forall r: nat :: n.released[r] == sys.released[r] + if r < sys.shared.Robots() then 1 else 0)
  }

  /** `WakeUpAll` alone, when every robot waits (or after `CleanUp`) and every lock is held: it returns and
      has released every robot exactly once. */
  lemma SweepReleasesAll(sys: System, t: nat) returns (k: nat)
    requires Sound(sys) && t < |sys.pcs| && sys.pcs[t] == Idle
    requires sys.shared.nIsRun ==> forall r | 0 <= r < sys.shared.Robots() :: sys.shared.bIsWait[r]
    requires forall r | 0 <= r < sys.shared.Robots() :: sys.shared.locked[r]
    ensures AllReleased(sys, Alone(Next(sys, Call(t, WakeUpAll)), t, k))
  {
    var z, robots := Next(sys, Call(t, WakeUpAll)), sys.shared.Robots();
    hide Sweeps, Alone, Next, AllReleased, Conserved, SharedFits, PcFits, Fire, Record;
    StartsSweep(sys, t);
    AloneNext(z, t, 0);
    AloneNext(z, t, 1);
    var mask: nat := 0;
    if sys.shared.nIsRun {
      k := ScansWhole(sys, z, t, robots);
      mask := Pow2(robots) - 1;
    } else {
      k := 2;
    }
    ReleasesAll(sys, z, t, k, mask, robots);
    SweepEnds(sys, Alone(z, t, k + robots), t, mask);
    AloneNext(z, t, k + robots);
    k := k + robots + 1;
  }

  lemma AloneNext(z: System, t: nat, k: nat)
    ensures Alone(z, t, 0) == z && Alone(z, t, k + 1) == Next(Alone(z, t, k), Run(t))
  {
  }

  lemma StartsSweep(sys: System, t: nat)
    requires Sound(sys) && t < |sys.pcs| && sys.pcs[t] == Idle
    ensures var n1 := Next(Next(sys, Call(t, WakeUpAll)), Run(t));
      && Sweeps(sys, n1, t, AllHead, 0, 0)
      && Sweeps(sys, Next(n1, Run(t)), t, if sys.shared.nIsRun then AllTest(0) else AllRelease(0), 0, 0)
  {
    SizesFit(sys);
    var z := Next(sys, Call(t, WakeUpAll));
    assert Sweeps(sys, z, t, AllReset, sys.shared.nCurBit, 0);
    assert Sweeps(sys, Next(z, Run(t)), t, AllHead, 0, 0);
  }

  lemma SweepEnds(sys: System, n: System, t: nat, mask: nat)
    requires Sound(sys) && t < |sys.pcs| && sys.pcs[t] == Idle
    requires forall r | 0 <= r < sys.shared.Robots() :: sys.shared.locked[r]
    requires Sweeps(sys, n, t, AllRelease(sys.shared.Robots()), mask, sys.shared.Robots())
    ensures AllReleased(sys, Next(n, Run(t)))
  {
    assert n.pcs[t := Idle] == sys.pcs;
  }

  lemma ScansWhole(sys: System, z: System, t: nat, robots: nat) returns (k: nat)
    requires Sound(sys) && robots == sys.shared.Robots()
    requires sys.shared.nIsRun && forall r | 0 <= r < robots :: sys.shared.bIsWait[r]
    requires Sweeps(sys, Alone(z, t, 2), t, AllTest(0), 0, 0)
    ensures Sweeps(sys, Alone(z, t, k), t, AllRelease(0), Pow2(robots) - 1, 0)
  {
    hide Sweeps, Alone, Next, Sound;
    k := ScansAll(sys, z, t, robots);
    AloneNext(z, t, k);
    AloneNext(z, t, k + 1);
    ScanIsFull(sys, Alone(z, t, k), t);
    k := k + 2;
  }

  lemma ScanIsFull(sys: System, n: System, t: nat)
    requires Sound(sys) && sys.shared.nIsRun
    requires Sweeps(sys, n, t, AllTest(sys.shared.Robots()), Pow2(sys.shared.Robots()) - 1, 0)
    ensures Sweeps(sys, Next(Next(n, Run(t)), Run(t)), t, AllRelease(0), Pow2(sys.shared.Robots()) - 1, 0)
  {
    SizesFit(sys);
    assert Sweeps(sys, Next(n, Run(t)), t, AllCompare, Pow2(sys.shared.Robots()) - 1, 0);
  }

  /** Robots before `i` are scanned, each found waiting. */
  lemma {:induction false} ScansAll(sys: System, z: System, t: nat, i: nat) returns (k: nat)
    requires Sound(sys) && i <= sys.shared.Robots()
    requires forall r | 0 <= r < sys.shared.Robots() :: sys.shared.bIsWait[r]
    requires Sweeps(sys, Alone(z, t, 2), t, AllTest(0), 0, 0)
    ensures Sweeps(sys, Alone(z, t, k), t, AllTest(i), Pow2(i) - 1, 0)
    decreases i
  {
    hide Sweeps, Alone, Next, Sound;
    k := 2;
    if i > 0 {
      k := ScansAll(sys, z, t, i - 1);
      ScansOne(sys, Alone(z, t, k), t, i - 1);
      AloneNext(z, t, k);
      AloneNext(z, t, k + 1);
      AloneNext(z, t, k + 2);
      k := k + 3;
    }
  }

  lemma ScansOne(sys: System, n: System, t: nat, i: nat)
    requires Sound(sys) && i < sys.shared.Robots() && sys.shared.bIsWait[i]
    requires Sweeps(sys, n, t, AllTest(i), Pow2(i) - 1, 0)
    ensures Sweeps(sys, Next(Next(Next(n, Run(t)), Run(t)), Run(t)), t, AllTest(i + 1), Pow2(i + 1) - 1, 0)
  {
    SizesFit(sys);
    var mask := Pow2(i) - 1;
    var n1 := Next(n, Run(t));
    var n2 := Next(n1, Run(t));
    hide Sound;
    SeesOne(sys, n, t, i, mask);
    LoadsOne(sys, n1, t, i, mask);
    GrowMask(i);
    StoresOne(sys, n2, t, i, mask);
  }

  lemma SeesOne(sys: System, n: System, t: nat, i: nat, mask: nat)
    requires i < |sys.shared.bIsWait| && sys.shared.bIsWait[i] && Sweeps(sys, n, t, AllTest(i), mask, 0)
    ensures Sweeps(sys, Next(n, Run(t)), t, AllLoad(i), mask, 0)
  {
  }

  lemma LoadsOne(sys: System, n: System, t: nat, i: nat, mask: nat)
    requires Sweeps(sys, n, t, AllLoad(i), mask, 0)
    ensures Sweeps(sys, Next(n, Run(t)), t, AllStore(i, mask), mask, 0)
  {
  }

  lemma StoresOne(sys: System, n: System, t: nat, i: nat, mask: nat)
    requires Sweeps(sys, n, t, AllStore(i, mask), mask, 0)
    ensures Sweeps(sys, Next(n, Run(t)), t, AllTest(i + 1), BitOr(mask, Pow2(i)), 0)
  {
  }

  /** Robots before `lo` are released. */
  lemma {:induction false} ReleasesAll(sys: System, z: System, t: nat, k: nat, mask: nat, lo: nat)
    requires Sound(sys) && lo <= sys.shared.Robots() && forall r | 0 <= r < sys.shared.Robots() :: sys.shared.locked[r]
    requires Sweeps(sys, Alone(z, t, k), t, AllRelease(0), mask, 0)
    ensures Sweeps(sys, Alone(z, t, k + lo), t, AllRelease(lo), mask, lo)
  {
    hide Sweeps, Alone, Next;
    if lo > 0 {
      ReleasesAll(sys, z, t, k, mask, lo - 1);
      SizesFit(sys);
      AloneNext(z, t, k + lo - 1);
      ReleasesOne(sys, Alone(z, t, k + lo - 1), t, mask, lo - 1);
    }
  }

  lemma ReleasesOne(sys: System, n: System, t: nat, mask: nat, lo: nat)
    requires |sys.shared.locked| == |sys.shared.bIsWait| && lo < |sys.shared.locked| && sys.shared.locked[lo]
    requires Sweeps(sys, n, t, AllRelease(lo), mask, lo)
    ensures Sweeps(sys, Next(n, Run(t)), t, AllRelease(lo + 1), mask, lo + 1)
  {
  }

  /** If some robot does not wait, the scan goes on and nothing is released, however long it runs. */
  lemma {:induction false} SweepWaitsForAll(sys: System, t: nat, r: nat, k: nat)
    requires Sound(sys) && t < |sys.pcs| && sys.pcs[t] == Idle && r < sys.shared.Robots()
    requires sys.shared.nIsRun && !sys.shared.bIsWait[r]
    ensures Searches(sys, Alone(Next(sys, Call(t, WakeUpAll)), t, k), t, r)
  {
    if k == 0 {
      assert Alone(Next(sys, Call(t, WakeUpAll)), t, 0) == Next(sys, Call(t, WakeUpAll));
    } else {
      SizesFit(sys);
      hide Searches, Conserved, PcFits;
      AloneNext(Next(sys, Call(t, WakeUpAll)), t, k - 1);
      SweepWaitsForAll(sys, t, r, k - 1);
      SearchGoesOn(sys, Alone(Next(sys, Call(t, WakeUpAll)), t, k - 1), t, r);
    }
  }

  /** Thread `t` is looking for waiting robots, has not seen robot `r`, and has released nothing. */
  ghost predicate Searches(sys: System, n: System, t: nat, r: nat) {
    && t < |sys.pcs| == |n.pcs| == |n.seen| && n.acquired == sys.acquired && n.released == sys.released
    && n.shared == sys.shared.(nCurBit := n.shared.nCurBit)
    && (n.pcs[t].AllReset? || (UsesMask(n.pcs[t]) && !TestBit(n.shared.nCurBit, r)))
    && (n.pcs[t].AllLoad? || n.pcs[t].AllStore? ==> n.pcs[t].i != r)
    && (n.pcs[t].AllStore? ==> !TestBit(n.pcs[t].loaded, r))
  }

  lemma SearchGoesOn(sys: System, n: System, t: nat, r: nat)
    requires SharedFits(sys.shared, sys.shared.Robots()) && r < sys.shared.Robots()
    requires sys.shared.nIsRun && !sys.shared.bIsWait[r]
    requires Searches(sys, n, t, r)
    ensures Searches(sys, Next(n, Run(t)), t, r)
  {
    ZeroHasNoBits(r);
    FullMask(sys.shared.Robots(), r);
    if n.pcs[t].AllStore? {
      OrIsUnion(n.pcs[t].loaded, Pow2(n.pcs[t].i), r);
      ShiftedOne(n.pcs[t].i, r);
    }
  }

  /** A robot that does not exist: `Wait` raises at once, and so does `WakeUp` while running, and neither
      changes anything. */
  lemma BadRobotRaises(sys: System, t: nat, r: nat)
    requires Sound(sys) && t < |sys.pcs| && sys.pcs[t] == Idle && r >= sys.shared.Robots()
    ensures Alone(Next(sys, Call(t, Wait(r))), t, 1) == sys.(pcs := sys.pcs[t := Raised])
    ensures sys.shared.nIsRun ==> Alone(Next(sys, Call(t, WakeUp(r))), t, 2) == sys.(pcs := sys.pcs[t := Raised])
  {
    SizesFit(sys);
    AloneNext(Next(sys, Call(t, Wait(r))), t, 0);
    AloneNext(Next(sys, Call(t, WakeUp(r))), t, 0);
    AloneNext(Next(sys, Call(t, WakeUp(r))), t, 1);
    hide Sound, Alone;
    assert sys.pcs[t := WaitFlag(r)][t := Raised] == sys.pcs[t := Raised];
    assert sys.pcs[t := WakeHead(r)][t := WakeTest(r)][t := Raised] == sys.pcs[t := Raised];
  }

  /** `CleanUp` ends the run for good. */
  lemma {:induction false} CleanUpIsFinal(sys: System, acts: seq<Action>)
    requires Sound(sys)
    ensures !RunFrom(Next(sys, CleanUp), acts).shared.nIsRun
    decreases |acts|
  {
    NextSound(sys, CleanUp);
    StaysDown(Next(sys, CleanUp), acts);
  }

  lemma {:induction false} StaysDown(sys: System, acts: seq<Action>)
    requires Sound(sys) && !sys.shared.nIsRun
    ensures !RunFrom(sys, acts).shared.nIsRun
    decreases |acts|
  {
    if acts != [] {
      NextSound(sys, acts[0]);
      SizesFit(sys);
      if acts[0].Run? && acts[0].t < |sys.pcs| { StepOutsideScan(sys.shared, sys.pcs[acts[0].t]); }
      StaysDown(Next(sys, acts[0]), acts[1..]);
    }
  }
}
