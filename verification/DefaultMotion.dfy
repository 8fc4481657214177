/** default_motion.py: a keyboard thread starts `run_one_cycle` threads behind the `running` flag.
    Every flag access, spawn, service request and service answer is one atomic step. */
module DefaultMotion {

  /** The requests of a cycle: two joint moves, the `i`-th of five line moves, and move_stop. */
  datatype Command = Home | PreStart | Line(i: nat) | Stop

  const NUM_WAYPOINTS: nat := 5

  /** How a service call ends: an answer, none (timeout or service error), or an exception on issue. */
  datatype Reply = Answered(success: bool) | NoResult | Throws

  predicate Good(reply: Reply) {
    reply.Answered? && reply.success
  }

  datatype Event = Issue(cmd: Command) | Answer(good: bool)

  /** The next statement of a cycle thread. */
  datatype Pc =
    | HomeMove | AwaitHome | PreMove | AwaitPre | LineMove(i: nat) | AwaitLine(i: nat)
    | StopMove | AwaitStop | SetDone | ClearRunning | Over

  /** The answers a cycle got so far: home, pre-start, the last of `k` waypoints, stop. */
  datatype Answers = Answers(home: bool, pre: bool, k: nat, last: bool, stop: bool)

  datatype Cycle = Cycle(pc: Pc, crashed: bool, log: seq<Event>, answers: Answers)

  /** The next statement of the keyboard thread. */
  datatype Kb = ReadKey | SawIdle | RaiseRunning | Spawn | Quit | AwaitQuit | Gone

  datatype Node = Node(
    running: bool, cycleDone: bool, rclpyOk: bool, kb: Kb, threads: seq<Cycle>, trace: seq<Event>)

  datatype Action = Press(ch: char) | Keyboard(reply: Reply) | Thread(t: nat, reply: Reply) | Shutdown

  const NEW_CYCLE := Cycle(HomeMove, false, [], Answers(false, false, 0, false, false))

  /** The thread after requesting `cmd`, or after the request threw. */
  function Request(c: Cycle, cmd: Command, next: Pc, reply: Reply): Cycle {
    if reply.Throws? then c.(crashed := true) else c.(pc := next, log := c.log + [Issue(cmd)])
  }

  function Receive(c: Cycle, answers: Answers, next: Pc, reply: Reply): Cycle {
    c.(pc := next, log := c.log + [Answer(Good(reply))], answers := answers)
  }

  function CycleStep(c: Cycle, reply: Reply): Cycle {
    var good := Good(reply);
    match c.pc
    case HomeMove => Request(c, Home, AwaitHome, reply)
    case AwaitHome => Receive(c, c.answers.(home := good), PreMove, reply)
    case PreMove => Request(c, PreStart, AwaitPre, reply)
    case AwaitPre => Receive(c, c.answers.(pre := good), LineMove(0), reply)
    case LineMove(i) => if i < NUM_WAYPOINTS then Request(c, Line(i), AwaitLine(i), reply) else c
    case AwaitLine(i) =>
      var next := if good && i + 1 < NUM_WAYPOINTS then LineMove(i + 1) else StopMove;
      Receive(c, c.answers.(k := i + 1, last := good), next, reply)
    case StopMove => Request(c, Stop, AwaitStop, reply)
    case AwaitStop => Receive(c, c.answers.(stop := good), SetDone, reply)
    case SetDone => c.(pc := ClearRunning)
    case ClearRunning => c.(pc := Over)
    case Over => c
  }

  function ThreadStep(n: Node, t: nat, reply: Reply): Node
    requires t < |n.threads|
  {
    var c := n.threads[t];
    if c.crashed then n
    else
      var c' := CycleStep(c, reply);
      assert |c.log| <= |c'.log| by { StepExtends(c, reply); }
      n.(threads := n.threads[t := c'],
         trace := n.trace + c'.log[|c.log|..],
         cycleDone := if c.pc == SetDone then true else n.cycleDone,
         running := if c.pc == ClearRunning then false else n.running)
  }

  function KeyboardStep(n: Node, reply: Reply): Node {
    match n.kb
    case ReadKey => if n.rclpyOk then n else n.(kb := Gone)
    case SawIdle => n.(cycleDone := false, kb := RaiseRunning)
    case RaiseRunning => n.(running := true, kb := Spawn)
    case Spawn => n.(threads := n.threads + [NEW_CYCLE], kb := ReadKey)
    case Quit => n.(kb := if reply.Throws? then Gone else AwaitQuit)
    case AwaitQuit => n.(rclpyOk := false, kb := Gone)
    case Gone => n
  }

  function KeyPress(n: Node, ch: char): Node {
    if n.kb != ReadKey || !n.rclpyOk then n
    else if ch == ' ' then n.(kb := if n.running then ReadKey else SawIdle)
    else if ch == 'q' || ch == 'Q' then n.(kb := Quit)
    else n
  }

  function Next(n: Node, a: Action): Node {
    match a
    case Press(ch) => KeyPress(n, ch)
    case Keyboard(reply) => KeyboardStep(n, reply)
    case Thread(t, reply) => if t < |n.threads| then ThreadStep(n, t, reply) else n
    case Shutdown => n.(rclpyOk := false)
  }

  const START := Node(false, false, true, ReadKey, [], [])

  function RunFrom(n: Node, acts: seq<Action>): Node
    decreases |acts|
  {
    if acts == [] then n else RunFrom(Next(n, acts[0]), acts[1..])
  }

  // ---------- the node, updated in place ----------

  class DefaultMotionNode {
    var running: bool
    var cycleDone: bool
    var rclpyOk: bool
    var kb: Kb
    var threads: seq<Cycle>
    var trace: seq<Event>

    ghost function View(): Node
      reads this
    {
      Node(running, cycleDone, rclpyOk, kb, threads, trace)
    }

    /** At most one cycle is active, the flag says whether one is, and the trace is serial. */
    ghost predicate Valid()
      reads this
    {
      Inv(View())
    }

    constructor ()
      ensures Valid() && View() == START
    {
      running, cycleDone, rclpyOk, kb, threads, trace := false, false, true, ReadKey, [], [];
    }

    method PressKey(ch: char)
      requires Valid()
      modifies this
      ensures Valid() && View() == KeyPress(old(View()), ch)
    {
      hide Inv;
      KeyKeeps(View(), ch);
      if kb == ReadKey && rclpyOk {
        if ch == ' ' {
          if !running { kb := SawIdle; }
        } else if ch == 'q' || ch == 'Q' {
          kb := Quit;
        }
      }
    }

    method KeyboardMonitor(reply: Reply)
      requires Valid()
      modifies this
      ensures Valid() && View() == KeyboardStep(old(View()), reply)
    {
      hide Inv;
      KeyboardKeeps(View(), reply);
      match kb {
        case ReadKey => if !rclpyOk { kb := Gone; }
        case SawIdle => cycleDone := false; kb := RaiseRunning;
        case RaiseRunning => running := true; kb := Spawn;
        case Spawn => threads := threads + [NEW_CYCLE]; kb := ReadKey;
        case Quit => kb := if reply.Throws? then Gone else AwaitQuit;
        case AwaitQuit => rclpyOk := false; kb := Gone;
        case Gone =>
      }
    }

    /** Requests `cmd` for thread `t`. */
    method Send(t: nat, cmd: Command, next: Pc, reply: Reply)
      requires t < |threads|
      modifies this`threads, this`trace
      ensures threads == old(threads)[t := Request(old(threads)[t], cmd, next, reply)]
      ensures trace == old(trace) + threads[t].log[|old(threads)[t].log|..]
    {
      if reply.Throws? {
        threads := threads[t := threads[t].(crashed := true)];
      } else {
        threads := threads[t := threads[t].(pc := next, log := threads[t].log + [Issue(cmd)])];
        trace := trace + [Issue(cmd)];
      }
    }

    method Wait(t: nat, answers: Answers, next: Pc, reply: Reply)
      requires t < |threads|
      modifies this`threads, this`trace
      ensures threads == old(threads)[t := Receive(old(threads)[t], answers, next, reply)]
      ensures trace == old(trace) + threads[t].log[|old(threads)[t].log|..]
    {
      var c := threads[t];
      threads := threads[t := c.(pc := next, log := c.log + [Answer(Good(reply))], answers := answers)];
      trace := trace + [Answer(Good(reply))];
    }

    /** The next statement of cycle thread `t` of `run_one_cycle`. */
    method RunOneCycle(t: nat, reply: Reply)
      requires Valid() && t < |threads|
      modifies this
      ensures Valid() && View() == ThreadStep(old(View()), t, reply)
    {
      hide Request, Receive, Inv;
      ThreadStepKeeps(View(), t, reply);
      var c := threads[t];
      if c.crashed { return; }
      match c.pc {
        case HomeMove => Send(t, Home, AwaitHome, reply);
        case AwaitHome => Wait(t, c.answers.(home := Good(reply)), PreMove, reply);
        case PreMove => Send(t, PreStart, AwaitPre, reply);
        case AwaitPre => Wait(t, c.answers.(pre := Good(reply)), LineMove(0), reply);
        case LineMove(i) => if i < NUM_WAYPOINTS { Send(t, Line(i), AwaitLine(i), reply); }
        case AwaitLine(i) =>
          if !Good(reply) {
            Wait(t, c.answers.(k := i + 1, last := false), StopMove, reply);
          } else {
            var next := if i + 1 < NUM_WAYPOINTS then LineMove(i + 1) else StopMove;
            Wait(t, c.answers.(k := i + 1, last := true), next, reply);
          }
        case StopMove => Send(t, Stop, AwaitStop, reply);
        case AwaitStop => Wait(t, c.answers.(stop := Good(reply)), SetDone, reply);
        case SetDone | ClearRunning | Over => Finish(t);
      }
    }

    /** The two flag writes that end a cycle. */
    method Finish(t: nat)
      requires t < |threads| && !threads[t].crashed
      requires threads[t].pc in {SetDone, ClearRunning, Over}
      modifies this
      ensures View() == ThreadStep(old(View()), t, NoResult)
    {
      var c := threads[t];
      match c.pc {
        case SetDone => cycleDone := true; threads := threads[t := c.(pc := ClearRunning)];
        case ClearRunning => running := false; threads := threads[t := c.(pc := Over)];
        case _ =>
      }
    }
  }

  // ---------- what every run keeps ----------

  /** HOME and PRE-START with their answers, then `i` waypoints sent and answered well. */
  function Lines(home: bool, pre: bool, i: nat): seq<Event> {
    if i == 0 then [Issue(Home)] + [Answer(home)] + [Issue(PreStart)] + [Answer(pre)]
    else Lines(home, pre, i - 1) + [Issue(Line(i - 1))] + [Answer(true)]
  }

  /** A whole cycle: HOME, PRE-START, `k >= 1` waypoints of which only the last may have failed
      (and did unless it was the fifth), then STOP. */
  ghost predicate ValidAnswers(a: Answers) {
    1 <= a.k <= NUM_WAYPOINTS && (a.k < NUM_WAYPOINTS ==> !a.last)
  }

  function WholeCycle(a: Answers): seq<Event>
    requires 1 <= a.k
  {
    Lines(a.home, a.pre, a.k - 1) + [Issue(Line(a.k - 1))] + [Answer(a.last)] + [Issue(Stop)] + [Answer(a.stop)]
  }

  ghost predicate IsCycle(log: seq<Event>) {
    exists a :: ValidAnswers(a) && log == WholeCycle(a)
  }

  /** What a thread at `pc` has logged. */
  ghost predicate LogFits(c: Cycle) {
    var a := c.answers;
    match c.pc
    case HomeMove => c.log == []
    case AwaitHome => c.log == [Issue(Home)]
    case PreMove => c.log == [Issue(Home)] + [Answer(a.home)]
    case AwaitPre => c.log == [Issue(Home)] + [Answer(a.home)] + [Issue(PreStart)]
    case LineMove(i) => i < NUM_WAYPOINTS && c.log == Lines(a.home, a.pre, i)
    case AwaitLine(i) => i < NUM_WAYPOINTS && c.log == Lines(a.home, a.pre, i) + [Issue(Line(i))]
    case StopMove =>
      ValidAnswers(a) && c.log == Lines(a.home, a.pre, a.k - 1) + [Issue(Line(a.k - 1))] + [Answer(a.last)]
    case AwaitStop =>
      && ValidAnswers(a)
      && c.log == Lines(a.home, a.pre, a.k - 1) + [Issue(Line(a.k - 1))] + [Answer(a.last)] + [Issue(Stop)]
    case _ => ValidAnswers(a) && c.log == WholeCycle(a)
  }

  function Logs(threads: seq<Cycle>): seq<Event> {
    if threads == [] then [] else Logs(threads[..|threads| - 1]) + threads[|threads| - 1].log
  }

  predicate Active(c: Cycle) {
    c.pc != Over
  }

  ghost predicate LastActive(n: Node) {
    n.threads != [] && Active(n.threads[|n.threads| - 1])
  }

  ghost predicate Inv(n: Node) {
    && (forall t | 0 <= t < |n.threads| :: LogFits(n.threads[t]) && (t < |n.threads| - 1 ==> !Active(n.threads[t])))
    && n.trace == Logs(n.threads)
    && (match n.kb
        case SawIdle | RaiseRunning => !n.running && !LastActive(n)
        case Spawn => n.running && !LastActive(n)
        case _ => n.running == LastActive(n))
  }

  lemma StepFits(c: Cycle, reply: Reply)
    requires LogFits(c) && !c.crashed
    ensures LogFits(CycleStep(c, reply))
  {
    match c.pc
    case LineMove(i) => LineFits(c, i, reply);
    case AwaitLine(i) => LineFits(c, i, reply);
    case StopMove | AwaitStop | SetDone | ClearRunning | Over => EndFits(c, reply);
    case _ => BeginningFits(c, reply);
  }

  lemma BeginningFits(c: Cycle, reply: Reply)
    requires LogFits(c) && (c.pc.HomeMove? || c.pc.AwaitHome? || c.pc.PreMove? || c.pc.AwaitPre?)
    ensures LogFits(CycleStep(c, reply))
  {
  }

  lemma LineFits(c: Cycle, i: nat, reply: Reply)
    requires LogFits(c) && (c.pc == LineMove(i) || c.pc == AwaitLine(i))
    ensures LogFits(CycleStep(c, reply))
  {
    if c.pc == AwaitLine(i) && Good(reply) && i + 1 < NUM_WAYPOINTS {
      assert Lines(c.answers.home, c.answers.pre, i + 1) == c.log + [Answer(true)];
    }
  }

  lemma EndFits(c: Cycle, reply: Reply)
    requires LogFits(c) && (c.pc.StopMove? || c.pc.AwaitStop? || c.pc.SetDone? || c.pc.ClearRunning? || c.pc.Over?)
    ensures LogFits(CycleStep(c, reply))
  {
  }

  lemma StepExtends(c: Cycle, reply: Reply)
    ensures var c' := CycleStep(c, reply);
      && |c.log| <= |c'.log| && c'.log == c.log + c'.log[|c.log|..]
      && (c.pc == Over ==> c' == c)
      && (c.pc != Over ==> (c'.pc == Over <==> c.pc == ClearRunning))
  {
  }

  lemma ThreadStepKeeps(n: Node, t: nat, reply: Reply)
    requires Inv(n) && t < |n.threads|
    ensures Inv(ThreadStep(n, t, reply))
  {
    var c := n.threads[t];
    if !c.crashed {
      StepFits(c, reply);
      StepExtends(c, reply);
      StepKeeps(n, t, CycleStep(c, reply), ThreadStep(n, t, reply));
    }
  }

  lemma StepKeeps(n: Node, t: nat, c': Cycle, n': Node)
    requires Inv(n) && t < |n.threads|
    requires var c := n.threads[t];
      && LogFits(c') && |c.log| <= |c'.log| && c'.log == c.log + c'.log[|c.log|..]
      && (c.pc == Over ==> c' == c)
      && (c.pc != Over ==> (c'.pc == Over <==> c.pc == ClearRunning))
      && n'.threads == n.threads[t := c'] && n'.trace == n.trace + c'.log[|c.log|..]
      && n'.kb == n.kb && n'.running == (if c.pc == ClearRunning then false else n.running)
    ensures Inv(n')
  {
    hide LogFits, Logs;
    if n.threads[t].pc == Over {
      assert n.threads[t := c'] == n.threads;
    } else {
      LastLogGrows(n.threads, c');
    }
  }

  lemma LastLogGrows(threads: seq<Cycle>, c': Cycle)
    requires threads != []
    requires var c := threads[|threads| - 1]; |c.log| <= |c'.log| && c'.log == c.log + c'.log[|c.log|..]
    ensures Logs(threads[|threads| - 1 := c']) == Logs(threads) + c'.log[|threads[|threads| - 1].log|..]
  {
    var last := |threads| - 1;
    assert threads[last := c'][..last] == threads[..last];
  }

  lemma KeyboardKeeps(n: Node, reply: Reply)
    requires Inv(n)
    ensures Inv(KeyboardStep(n, reply))
  {
    hide LogFits, Logs;
    if n.kb == Spawn { SpawnKeeps(n); }
  }

  lemma SpawnKeeps(n: Node)
    requires Inv(n) && n.kb == Spawn
    ensures Inv(n.(threads := n.threads + [NEW_CYCLE], kb := ReadKey))
  {
    hide LogFits;
    var after := n.threads + [NEW_CYCLE];
    assert after[..|n.threads|] == n.threads;
    assert Logs(after) == Logs(n.threads) + NEW_CYCLE.log;
    NewCycleFits();
  }

  lemma NewCycleFits()
    ensures LogFits(NEW_CYCLE)
  {
  }

  lemma KeyKeeps(n: Node, ch: char)
    requires Inv(n)
    ensures Inv(KeyPress(n, ch))
  {
    hide LogFits, Logs;
  }

  lemma NextKeeps(n: Node, a: Action)
    requires Inv(n)
    ensures Inv(Next(n, a))
  {
    hide Inv, ThreadStep, KeyboardStep, KeyPress;
    match a
    case Press(ch) => KeyKeeps(n, ch);
    case Keyboard(reply) => KeyboardKeeps(n, reply);
    case Thread(t, reply) => if t < |n.threads| { ThreadStepKeeps(n, t, reply); }
    case Shutdown => ShutdownKeeps(n);
  }

  lemma ShutdownKeeps(n: Node)
    requires Inv(n)
    ensures Inv(n.(rclpyOk := false))
  {
  }

  lemma {:induction false} RunKeeps(n: Node, acts: seq<Action>)
    requires Inv(n)
    ensures Inv(RunFrom(n, acts))
    decreases |acts|
  {
    if acts != [] {
      NextKeeps(n, acts[0]);
      RunKeeps(Next(n, acts[0]), acts[1..]);
    }
  }

  /** In every interleaving of keys, keyboard steps and cycle steps at most one cycle thread lies
      between its spawn and clearing `running`, and while one does the flag is up. */
  lemma AtMostOneCycle(acts: seq<Action>, t: nat, u: nat)
    requires var n := RunFrom(START, acts);
      t < |n.threads| && u < |n.threads| && Active(n.threads[t]) && Active(n.threads[u])
    ensures t == u && RunFrom(START, acts).running
  {
    RunKeeps(START, acts);
  }

  /** A cycle so far is the beginning of some whole cycle. */
  lemma BeginsACycle(c: Cycle) returns (whole: Answers)
    requires LogFits(c)
    ensures ValidAnswers(whole) && c.log <= WholeCycle(whole)
    ensures c.pc == Over ==> c.log == WholeCycle(whole)
  {
    hide LogFits, WholeCycle;
    var a := c.answers;
    match c.pc {
      case HomeMove | AwaitHome | PreMove | AwaitPre =>
        whole := a.(k := 1, last := false);
        HeadIsFirst(c, whole);
      case LineMove(i) =>
        whole := a.(k := i + 1, last := false);
        LinesAreFirst(c, i, whole);
      case AwaitLine(i) =>
        whole := a.(k := i + 1, last := false);
        LinesAreFirst(c, i, whole);
      case _ =>
        whole := a;
        EndIsFirst(c);
    }
  }

  lemma HeadIsFirst(c: Cycle, whole: Answers)
    requires LogFits(c) && (c.pc.HomeMove? || c.pc.AwaitHome? || c.pc.PreMove? || c.pc.AwaitPre?)
    requires whole == c.answers.(k := 1, last := false)
    ensures c.log <= WholeCycle(whole)
  {
    hide WholeCycle, Lines;
    WholeBegins(whole);
    HeadBegins(whole.home, whole.pre, c.log);
  }

  lemma LinesAreFirst(c: Cycle, i: nat, whole: Answers)
    requires LogFits(c) && (c.pc == LineMove(i) || c.pc == AwaitLine(i))
    requires whole == c.answers.(k := i + 1, last := false)
    ensures i < NUM_WAYPOINTS && c.log <= WholeCycle(whole)
  {
    hide WholeCycle, Lines;
    WholeBegins(whole);
  }

  lemma EndIsFirst(c: Cycle)
    requires LogFits(c) && (c.pc.StopMove? || c.pc.AwaitStop? || c.pc.SetDone? || c.pc.ClearRunning? || c.pc.Over?)
    ensures ValidAnswers(c.answers) && c.log <= WholeCycle(c.answers)
    ensures c.pc == Over ==> c.log == WholeCycle(c.answers)
  {
    hide WholeCycle, Lines;
    WholeBegins(c.answers);
  }

  lemma HeadBegins(home: bool, pre: bool, log: seq<Event>)
    requires
      || log == [] || log == [Issue(Home)] || log == [Issue(Home)] + [Answer(home)]
      || log == [Issue(Home)] + [Answer(home)] + [Issue(PreStart)]
    ensures log <= Lines(home, pre, 0)
  {
  }

  lemma WholeBegins(a: Answers)
    requires 1 <= a.k
    ensures var s := Lines(a.home, a.pre, a.k - 1); var line := [Issue(Line(a.k - 1))];
      && s <= WholeCycle(a) && s + line <= WholeCycle(a) && s + line + [Answer(a.last)] <= WholeCycle(a)
      && s + line + [Answer(a.last)] + [Issue(Stop)] <= WholeCycle(a)
  {
  }

  /** The cycle threads never mix their commands: in every interleaving the trace is their logs one
      after another in order of spawning, every cycle but the last is whole, and the last is the
      beginning of a whole one. */
  lemma TraceIsSerial(acts: seq<Action>)
    ensures var n := RunFrom(START, acts);
      && n.trace == Logs(n.threads)
      && (forall t | 0 <= t < |n.threads| - 1 :: IsCycle(n.threads[t].log))
      && (n.threads != [] ==> exists whole :: IsCycle(whole) && n.threads[|n.threads| - 1].log <= whole)
  {
    RunKeeps(START, acts);
    var n := RunFrom(START, acts);
    forall t | 0 <= t < |n.threads| - 1 ensures IsCycle(n.threads[t].log) {
      var whole := BeginsACycle(n.threads[t]);
    }
    if n.threads != [] {
      var whole := BeginsACycle(n.threads[|n.threads| - 1]);
      assert IsCycle(WholeCycle(whole));
    }
  }

  // ---------- keys and cycles do get somewhere ----------

  lemma {:induction false} RunConcat(n: Node, first: seq<Action>, second: seq<Action>)
    ensures RunFrom(n, first + second) == RunFrom(RunFrom(n, first), second)
    decreases |first|
  {
    if first == [] {
      assert first + second == second;
    } else {
      assert (first + second)[1..] == first[1..] + second;
      RunConcat(Next(n, first[0]), first[1..], second);
    }
  }

  lemma Take(n: Node, acts: seq<Action>, a: Action) returns (acts': seq<Action>)
    ensures acts' == acts + [a] && RunFrom(n, acts') == Next(RunFrom(n, acts), a)
  {
    acts' := acts + [a];
    RunConcat(n, acts, [a]);
    var m := RunFrom(n, acts);
    assert RunFrom(m, [a]) == RunFrom(Next(m, a), [a][1..]);
  }

  /** A space key while the node is idle: the keyboard thread's next three statements spawn exactly one
      cycle, with `running` up and `cycle_done` down. */
  lemma SpaceStartsCycle(n: Node, r1: Reply, r2: Reply, r3: Reply)
    requires n.kb == ReadKey && n.rclpyOk && !n.running
    ensures RunFrom(n, [Press(' '), Keyboard(r1), Keyboard(r2), Keyboard(r3)])
         == Node(true, false, true, ReadKey, n.threads + [NEW_CYCLE], n.trace)
  {
    var acts := [Press(' '), Keyboard(r1), Keyboard(r2), Keyboard(r3)];
    assert acts[1..] == [Keyboard(r1), Keyboard(r2), Keyboard(r3)];
    assert acts[1..][1..] == [Keyboard(r2), Keyboard(r3)] && acts[1..][1..][1..] == [Keyboard(r3)];
    var n1 := n.(kb := SawIdle);
    var n2 := n.(kb := RaiseRunning, cycleDone := false);
    var n3 := n.(kb := Spawn, cycleDone := false, running := true);
    var n4 := Node(true, false, true, ReadKey, n.threads + [NEW_CYCLE], n.trace);
    assert Next(n, acts[0]) == n1 && Next(n1, acts[1]) == n2 && Next(n2, acts[2]) == n3 && Next(n3, acts[3]) == n4;
    assert RunFrom(n3, [Keyboard(r3)]) == RunFrom(n4, []) == n4;
    assert RunFrom(n2, [Keyboard(r2), Keyboard(r3)]) == RunFrom(n3, [Keyboard(r3)]);
    assert RunFrom(n1, acts[1..]) == RunFrom(n2, [Keyboard(r2), Keyboard(r3)]);
  }

  /** A space key while a cycle runs does nothing. */
  lemma SpaceIsIgnored(n: Node)
    requires n.running
    ensures KeyPress(n, ' ') == n
  {
  }

  /** The quit key stops the robot and shuts rclpy down, and no key does anything after that. */
  lemma QuitShutsDown(n: Node, ch: char, answer: Reply, other: char)
    requires n.kb == ReadKey && n.rclpyOk && (ch == 'q' || ch == 'Q') && !answer.Throws?
    ensures var m := RunFrom(n, [Press(ch), Keyboard(answer), Keyboard(answer)]);
      m == n.(rclpyOk := false, kb := Gone) && KeyPress(m, other) == m && KeyboardStep(m, answer) == m
  {
    var acts := [Press(ch), Keyboard(answer), Keyboard(answer)];
    assert acts[1..] == [Keyboard(answer), Keyboard(answer)] && acts[1..][1..] == [Keyboard(answer)];
    var n1, n2, n3 := n.(kb := Quit), n.(kb := AwaitQuit), n.(rclpyOk := false, kb := Gone);
    assert Next(n, acts[0]) == n1 && Next(n1, acts[1]) == n2 && Next(n2, acts[2]) == n3;
    assert RunFrom(n2, [Keyboard(answer)]) == RunFrom(n3, []) == n3;
    assert RunFrom(n1, acts[1..]) == RunFrom(n2, [Keyboard(answer)]);
  }

  /** Thread `t` stands at `pc` with these answers, and has logged `log` since `n`. */
  function With(n: Node, t: nat, pc: Pc, answers: Answers, log: seq<Event>): Node
    requires t < |n.threads|
  {
    n.(threads := n.threads[t := Cycle(pc, false, log, answers)], trace := n.trace + log)
  }

  const GOOD := Answered(true)

  /** Two statements of the cycle thread: a request and its good answer. */
  lemma Exchange(n: Node, t: nat, pc: Pc, a: Answers, log: seq<Event>, cmd: Command, wait: Pc, pc': Pc, a': Answers)
    requires t < |n.threads| && pc != ClearRunning && wait != ClearRunning && pc != SetDone && wait != SetDone
    requires CycleStep(Cycle(pc, false, log, a), GOOD) == Cycle(wait, false, log + [Issue(cmd)], a)
    requires CycleStep(Cycle(wait, false, log + [Issue(cmd)], a), GOOD)
          == Cycle(pc', false, log + [Issue(cmd)] + [Answer(true)], a')
    ensures RunFrom(With(n, t, pc, a, log), [Thread(t, GOOD), Thread(t, GOOD)])
         == With(n, t, pc', a', log + [Issue(cmd)] + [Answer(true)])
  {
    var n0 := With(n, t, pc, a, log);
    var n1 := With(n, t, wait, a, log + [Issue(cmd)]);
    var n2 := With(n, t, pc', a', log + [Issue(cmd)] + [Answer(true)]);
    OneLogged(n, t, pc, a, log, wait, a, Issue(cmd), GOOD);
    OneLogged(n, t, wait, a, log + [Issue(cmd)], pc', a', Answer(true), GOOD);
    var acts := [Thread(t, GOOD), Thread(t, GOOD)];
    assert acts[1..] == [Thread(t, GOOD)] && acts[1..][1..] == [];
    assert RunFrom(n0, acts) == RunFrom(n1, acts[1..]) == RunFrom(n2, acts[1..][1..]);
  }

  lemma OneLogged(n: Node, t: nat, pc: Pc, a: Answers, log: seq<Event>, pc': Pc, a': Answers, e: Event, reply: Reply)
    requires t < |n.threads| && pc != ClearRunning && pc != SetDone
    requires CycleStep(Cycle(pc, false, log, a), reply) == Cycle(pc', false, log + [e], a')
    ensures Next(With(n, t, pc, a, log), Thread(t, reply)) == With(n, t, pc', a', log + [e])
  {
    var c := Cycle(pc, false, log, a);
    assert (log + [e])[|log|..] == [e];
    assert n.trace + log + [e] == n.trace + (log + [e]);
    assert n.threads[t := c][t := Cycle(pc', false, log + [e], a')] == n.threads[t := Cycle(pc', false, log + [e], a')];
  }

  /** The first `i` waypoints of a cycle that is scheduled alone and always answered well. */
  lemma {:induction false} WaypointsGoWell(n: Node, t: nat, i: nat) returns (acts: seq<Action>)
    requires t < |n.threads| && n.threads[t] == NEW_CYCLE && i < NUM_WAYPOINTS
    ensures RunFrom(n, acts) == With(n, t, LineMove(i), Answers(true, true, i, i > 0, false), Lines(true, true, i))
  {
    if i == 0 {
      acts := ApproachGoesWell(n, t);
    } else {
      acts := WaypointsGoWell(n, t, i - 1);
      var a, a' := Answers(true, true, i - 1, i > 1, false), Answers(true, true, i, true, false);
      Exchange(n, t, LineMove(i - 1), a, Lines(true, true, i - 1), Line(i - 1), AwaitLine(i - 1), LineMove(i), a');
      RunConcat(n, acts, [Thread(t, GOOD), Thread(t, GOOD)]);
      acts := acts + [Thread(t, GOOD), Thread(t, GOOD)];
    }
  }

  lemma ApproachGoesWell(n: Node, t: nat) returns (acts: seq<Action>)
    requires t < |n.threads| && n.threads[t] == NEW_CYCLE
    ensures RunFrom(n, acts) == With(n, t, LineMove(0), Answers(true, true, 0, false, false), Lines(true, true, 0))
  {
    var a0, a1, a2 := NEW_CYCLE.answers, Answers(true, false, 0, false, false), Answers(true, true, 0, false, false);
    var pair := [Thread(t, GOOD), Thread(t, GOOD)];
    assert With(n, t, HomeMove, a0, []) == n;
    Exchange(n, t, HomeMove, a0, [], Home, AwaitHome, PreMove, a1);
    Exchange(n, t, PreMove, a1, [Issue(Home)] + [Answer(true)], PreStart, AwaitPre, LineMove(0), a2);
    assert [] + [Issue(Home)] + [Answer(true)] == [Issue(Home)] + [Answer(true)];
    acts := pair + pair;
    RunConcat(n, pair, pair);
  }

  /** A new cycle thread that is scheduled alone and always answered well sends HOME, PRE-START, all five
      waypoints and STOP, then raises `cycle_done`, takes `running` down and is over. */
  lemma CycleGoesWell(n: Node, t: nat) returns (acts: seq<Action>)
    requires t < |n.threads| && n.threads[t] == NEW_CYCLE
    ensures var answers := Answers(true, true, NUM_WAYPOINTS, true, true);
      RunFrom(n, acts) == With(n, t, Over, answers, WholeCycle(answers)).(running := false, cycleDone := true)
  {
    var last, a4 := NUM_WAYPOINTS - 1, Answers(true, true, NUM_WAYPOINTS - 1, true, false);
    var a5, a := Answers(true, true, NUM_WAYPOINTS, true, false), Answers(true, true, NUM_WAYPOINTS, true, true);
    var pair, lines := [Thread(t, GOOD), Thread(t, GOOD)], Lines(true, true, last);
    acts := WaypointsGoWell(n, t, last);
    Exchange(n, t, LineMove(last), a4, lines, Line(last), AwaitLine(last), StopMove, a5);
    RunConcat(n, acts, pair);
    acts := acts + pair;
    var line := lines + [Issue(Line(last))] + [Answer(true)];
    Exchange(n, t, StopMove, a5, line, Stop, AwaitStop, SetDone, a);
    RunConcat(n, acts, pair);
    acts := acts + pair;
    CycleEnds(n, t, a, WholeCycle(a));
    RunConcat(n, acts, pair);
    acts := acts + pair;
  }

  lemma CycleEnds(n: Node, t: nat, a: Answers, log: seq<Event>)
    requires t < |n.threads|
    ensures RunFrom(With(n, t, SetDone, a, log), [Thread(t, GOOD), Thread(t, GOOD)])
         == With(n, t, Over, a, log).(running := false, cycleDone := true)
  {
    var acts := [Thread(t, GOOD), Thread(t, GOOD)];
    assert acts[1..] == [Thread(t, GOOD)] && acts[1..][1..] == [];
    var n0 := With(n, t, SetDone, a, log);
    var n1 := With(n, t, ClearRunning, a, log).(cycleDone := true);
    assert log[|log|..] == [] && n0.trace + [] == n0.trace;
    var n2 := With(n, t, Over, a, log).(running := false, cycleDone := true);
    assert Next(n0, acts[0]) == n1 && Next(n1, acts[1]) == n2;
    assert RunFrom(n1, acts[1..]) == RunFrom(n2, []) == n2;
  }

  /** After `i` good waypoints a bad or missing answer to the next one ends the waypoints: STOP follows, and
      the cycle ends like any other. */
  lemma CycleBreaksOff(n: Node, t: nat, i: nat, bad: Reply) returns (acts: seq<Action>)
    requires t < |n.threads| && n.threads[t] == NEW_CYCLE
    requires i < NUM_WAYPOINTS && (bad == Answered(false) || bad == NoResult)
    ensures var answers := Answers(true, true, i + 1, false, true);
      RunFrom(n, acts) == With(n, t, Over, answers, WholeCycle(answers)).(running := false, cycleDone := true)
  {
    var a4, a5 := Answers(true, true, i, i > 0, false), Answers(true, true, i + 1, false, false);
    var a, lines := Answers(true, true, i + 1, false, true), Lines(true, true, i);
    var pair := [Thread(t, GOOD), Thread(t, GOOD)];
    acts := WaypointsGoWell(n, t, i);
    var sent := lines + [Issue(Line(i))];
    OneLogged(n, t, LineMove(i), a4, lines, AwaitLine(i), a4, Issue(Line(i)), GOOD);
    OneLogged(n, t, AwaitLine(i), a4, sent, StopMove, a5, Answer(false), bad);
    acts := Take(n, acts, Thread(t, GOOD));
    acts := Take(n, acts, Thread(t, bad));
    Exchange(n, t, StopMove, a5, sent + [Answer(false)], Stop, AwaitStop, SetDone, a);
    RunConcat(n, acts, pair);
    acts := acts + pair;
    CycleEnds(n, t, a, WholeCycle(a));
    RunConcat(n, acts, pair);
    acts := acts + pair;
  }

  /** A key matters exactly if it is read while rclpy is up, and is a space while no cycle runs or the
      quit key; after a shutdown the next look at rclpy ends the keyboard thread. */
  lemma KeysThatMatter(n: Node, ch: char, reply: Reply)
    ensures KeyPress(n, ch) != n <==>
      n.kb == ReadKey && n.rclpyOk && ((ch == ' ' && !n.running) || ch == 'q' || ch == 'Q')
    ensures n.kb == ReadKey ==> KeyboardStep(Next(n, Shutdown), reply).kb == Gone
  {
  }

  /** A request that throws kills the cycle thread with `running` up: whatever happens after that, no
      key starts a cycle any more. */
  lemma {:induction false} CrashBlocksTheNode(n: Node, acts: seq<Action>)
    requires Inv(n) && n.threads != []
    requires var c := n.threads[|n.threads| - 1]; c.crashed && Active(c)
    ensures var m := RunFrom(n, acts); m.running && m.threads == n.threads && m.trace == n.trace
    decreases |acts|
  {
    if acts != [] {
      NextKeeps(n, acts[0]);
      BlockedStep(n, acts[0]);
      CrashBlocksTheNode(Next(n, acts[0]), acts[1..]);
    }
  }

  lemma BlockedStep(n: Node, a: Action)
    requires Inv(n) && n.threads != []
    requires var c := n.threads[|n.threads| - 1]; c.crashed && Active(c)
    ensures var m := Next(n, a); m.running && m.threads == n.threads && m.trace == n.trace
  {
    if a.Thread? && a.t < |n.threads| - 1 {
      var c := n.threads[a.t];
      assert !Active(c);
      assert n.threads[a.t := c] == n.threads && c.log[|c.log|..] == [] && n.trace + [] == n.trace;
    }
  }
}
