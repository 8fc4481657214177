/** DR_tcp_server2.py called from several threads: every socket operation and every read, write or
    deletion of a registry entry is one atomic step. */
module TcpServerThreads {
  import opened TcpServer

  /** The registries and the open sockets. A connection is keyed by its client socket; the value is
      its listener. Socket numbers are never reused. */
  datatype Registries = Registries(connList: map<nat, nat>, connState: map<nat, int>, live: set<nat>, next: nat)

  /** What a thread does once a connection is removed: return, or go on cleaning. */
  datatype After = Return | Cleaning(rest: seq<nat>)

  /** The next statement of a thread. `bound`: an earlier round has assigned the listener. */
  datatype Pc =
    | Idle | Raised
    | OpenCreate(port: nat, bound: bool)
    | OpenOption(port: nat, server: nat) | OpenBind(port: nat, server: nat) | OpenAccept(port: nat, server: nat)
    | OpenExcept(port: nat, server: nat)
    | OpenConn(port: nat, client: nat, server: nat) | OpenState(port: nat, client: nat, server: nat)
    | OpenTimeout(port: nat, client: nat, server: nat)
    | CloseCheck(k: nat) | CleanList | CleanNext(rest: seq<nat>)
    | Lookup(k: nat, after: After) | CloseClient(k: nat, server: nat, after: After)
    | CloseServer(k: nat, server: nat, after: After) | DelState(k: nat, after: After) | DelConn(k: nat, after: After)
    | ReadCheck(k: nat) | ReadRecv(k: nat) | ReadMark(k: nat)

  /** What the world contributes to a step: success, a socket error (for a receive: the end of the
      stream), or the order in which a dictionary lists its keys. */
  datatype Event = Good | Bad | Keys(ids: seq<nat>)

  datatype Effect = Tau | Registers(k: nat) | Closes(k: nat) | MarksLate(k: nat) | Leaks(s: nat)

  datatype Outcome = Outcome(m: Registries, pc: Pc, effect: Effect)

  function Resume(after: After): Pc {
    if after.Return? then Idle else CleanNext(after.rest)
  }

  function Fire(m: Registries, pc: Pc, ev: Event): Outcome {
    match pc
    case Idle | Raised => Outcome(m, pc, Tau)
    case OpenCreate(port, bound) =>
      if ev == Bad then Outcome(m, if bound then pc else Raised, Tau)
      else Outcome(m.(live := m.live + {m.next}, next := m.next + 1), OpenOption(port, m.next), Tau)
    case OpenOption(port, s) => Outcome(m, if ev == Bad then OpenExcept(port, s) else OpenBind(port, s), Tau)
    case OpenBind(port, s) =>
      if port > MAX_PORT then Outcome(m, Raised, Leaks(s))
      else Outcome(m, if ev == Bad then OpenExcept(port, s) else OpenAccept(port, s), Tau)
    case OpenAccept(port, s) =>
      if ev == Bad then Outcome(m, OpenExcept(port, s), Tau)
      else Outcome(m.(live := m.live + {m.next}, next := m.next + 1), OpenConn(port, m.next, s), Tau)
    case OpenExcept(port, s) => Outcome(m.(live := m.live - {s}), OpenCreate(port, true), Tau)
    case OpenConn(port, c, s) => Outcome(m.(connList := m.connList[c := s]), OpenState(port, c, s), Registers(c))
    case OpenState(port, c, s) => Outcome(m.(connState := m.connState[c := 1]), OpenTimeout(port, c, s), Tau)
    case OpenTimeout(port, c, s) => Outcome(m, if c in m.live then Idle else OpenExcept(port, s), Tau)
    case CloseCheck(k) => Outcome(m, if k in m.connList then Lookup(k, Return) else Idle, Tau)
    case CleanList =>
      var listed := ev.Keys? && (set k | k in ev.ids) == m.connList.Keys;
      Outcome(m, if listed then CleanNext(ev.ids) else pc, Tau)
    case CleanNext(rest) => Outcome(m, if rest == [] then Idle else Lookup(rest[0], Cleaning(rest[1..])), Tau)
    case Lookup(k, after) => Outcome(m, if k in m.connList then CloseClient(k, m.connList[k], after) else Raised, Tau)
    case CloseClient(k, s, after) => Outcome(m.(live := m.live - {k}), CloseServer(k, s, after), Closes(k))
    case CloseServer(k, s, after) => Outcome(m.(live := m.live - {s}), DelState(k, after), Tau)
    case DelState(k, after) =>
      if k in m.connState then Outcome(m.(connState := m.connState - {k}), DelConn(k, after), Tau)
      else Outcome(m, Raised, Tau)
    case DelConn(k, after) =>
      if k in m.connList then Outcome(m.(connList := m.connList - {k}), Resume(after), Tau) else Outcome(m, Raised, Tau)
    case ReadCheck(k) => Outcome(m, if k in m.connList then ReadRecv(k) else Idle, Tau)
    case ReadRecv(k) => Outcome(m, if ev == Bad then ReadMark(k) else Idle, Tau)
    case ReadMark(k) =>
      Outcome(m.(connState := m.connState[k := 0]), Idle, if k in m.connState then Tau else MarksLate(k))
  }

  /** Beside the program's own state: the keys ever registered, those whose removal began, those marked
      as disconnected when they had no state entry, and the listeners a raising open left behind. */
  datatype History = History(known: set<nat>, closing: set<nat>, late: set<nat>, leaked: set<nat>)

  datatype System = System(m: Registries, pcs: seq<Pc>, h: History)

  datatype Call = Open(port: nat) | Close(k: nat) | Clean | Read(k: nat)

  datatype Action = Begin(t: nat, call: Call) | Run(t: nat, ev: Event)

  /** The beginning of a call; an open of the reserved port is refused at once. */
  function Entry(call: Call): Pc {
    match call
    case Open(port) => if port == TP_SERVER_PORT then Idle else OpenCreate(port, false)
    case Close(k) => CloseCheck(k)
    case Clean => CleanList
    case Read(k) => ReadCheck(k)
  }

  function Record(h: History, e: Effect): History {
    match e
    case Tau => h
    case Registers(k) => h.(known := h.known + {k})
    case Closes(k) => h.(closing := h.closing + {k})
    case MarksLate(k) => h.(late := h.late + {k})
    case Leaks(s) => h.(leaked := h.leaked + {s})
  }

  function Next(sys: System, a: Action): System {
    match a
    case Begin(t, call) => if t < |sys.pcs| && sys.pcs[t] == Idle then sys.(pcs := sys.pcs[t := Entry(call)]) else sys
    case Run(t, ev) =>
      if t < |sys.pcs| then
        var o := Fire(sys.m, sys.pcs[t], ev);
        System(o.m, sys.pcs[t := o.pc], Record(sys.h, o.effect))
      else sys
  }

  function Start(threads: nat): System {
    System(Registries(map[], map[], {}, 0), seq(threads, _ => Idle), History({}, {}, {}, {}))
  }

  function RunFrom(sys: System, acts: seq<Action>): System
    decreases |acts|
  {
    if acts == [] then sys else RunFrom(Next(sys, acts[0]), acts[1..])
  }

  // ---------- the invariant ----------

  /** The sockets that an opening thread refers to. */
  function Refs(pc: Pc): set<nat> {
    match pc
    case OpenOption(_, s) => {s}
    case OpenBind(_, s) => {s}
    case OpenAccept(_, s) => {s}
    case OpenExcept(_, s) => {s}
    case OpenConn(_, c, s) => {c, s}
    case OpenState(_, c, s) => {c, s}
    case OpenTimeout(_, c, s) => {c, s}
    case _ => {}
  }

  /** Of these, the ones nobody else knows yet. */
  function Held(pc: Pc): set<nat> {
    if pc.OpenState? || pc.OpenTimeout? then {} else Refs(pc)
  }

  function Rest(after: After): seq<nat> {
    if after.Return? then [] else after.rest
  }

  ghost predicate AllKnown(ids: seq<nat>, h: History) {
    forall i | 0 <= i < |ids| :: ids[i] in h.known
  }

  /** A thread between the two writes, or between the two deletions, for `k`. */
  predicate Between(pc: Pc, k: nat) {
    (pc.OpenState? && pc.client == k) || (pc.DelConn? && pc.k == k)
  }

  /** A thread on its way to remove `k`, which has closed the client. */
  predicate Removing(pc: Pc, k: nat) {
    (pc.CloseServer? || pc.DelState? || pc.DelConn?) && pc.k == k
  }

  /** `s` is the listener of some connection. */
  ghost predicate IsListener(m: Registries, s: nat) {
    exists k :: k in m.connList && m.connList[k] == s
  }

  /** The registries by themselves. */
  ghost predicate Global(m: Registries, h: History) {
    && m.connList.Keys <= h.known && m.connState.Keys <= h.known && h.closing <= h.known && h.late <= h.known
    && (forall k | k in h.known || k in m.live || k in h.leaked :: k < m.next)
    && (forall k | k in m.connList :: m.connList[k] < m.next && m.connList[k] !in h.known)
    && (forall j, k | j in m.connList && k in m.connList && j != k :: m.connList[j] != m.connList[k])
    && (forall k | k in m.connState :: m.connState[k] == 0 || m.connState[k] == 1)
    && (forall k | k in m.connState && k !in m.connList :: k in h.late)
    && (forall k | k in m.connList && k !in h.closing :: k in m.live && m.connList[k] in m.live)
  }

  /** What holds where a thread stands. */
  ghost predicate Local(m: Registries, h: History, pc: Pc) {
    && (forall s | s in Refs(pc) :: s < m.next)
    && match pc
       case OpenOption(_, s) => s in m.live && s !in h.known && !IsListener(m, s)
       case OpenBind(_, s) => s in m.live && s !in h.known && !IsListener(m, s)
       case OpenAccept(_, s) => s in m.live && s !in h.known && !IsListener(m, s)
       case OpenExcept(_, s) => s !in h.known && forall k | k in m.connList && m.connList[k] == s :: k in h.closing
       case OpenConn(_, c, s) =>
         && c != s && c in m.live && s in m.live && c !in h.known && s !in h.known
         && !IsListener(m, c) && !IsListener(m, s)
       case OpenState(_, c, s) =>
         && c in h.known && s !in h.known && OnlyPair(m, c, s)
         && (c in m.connState || c !in m.connList ==> c in h.late)
       case OpenTimeout(_, c, s) => c in h.known && s !in h.known && OnlyPair(m, c, s)
       case CleanNext(rest) => AllKnown(rest, h)
       case Lookup(k, after) => k in h.known && AllKnown(Rest(after), h)
       case CloseClient(k, s, after) =>
         && k in h.known && AllKnown(Rest(after), h)
         && (PairIs(m, k, s) || (k !in m.live && s !in m.live && s < m.next && k !in m.connList))
       case CloseServer(k, s, after) =>
         && k in h.known && AllKnown(Rest(after), h) && k !in m.live && k in h.closing
         && (PairIs(m, k, s) || (s !in m.live && s < m.next && k !in m.connList))
       case DelState(k, after) => k in h.known && AllKnown(Rest(after), h) && k in h.closing && PairClosed(m, k)
       case DelConn(k, after) =>
         && k in h.known && AllKnown(Rest(after), h) && k in h.closing && PairClosed(m, k)
         && (k in m.connState || k !in m.connList ==> k in h.late)
       case ReadRecv(k) => k in h.known
       case ReadMark(k) => k in h.known
       case _ => true
  }

  ghost predicate PairIs(m: Registries, k: nat, s: nat) {
    k in m.connList && m.connList[k] == s
  }

  /** If `c` is registered, then with `s`; and `s` belongs to no other connection. */
  ghost predicate OnlyPair(m: Registries, c: nat, s: nat) {
    (c in m.connList ==> m.connList[c] == s) && forall k | k in m.connList && m.connList[k] == s :: k == c
  }

  ghost predicate PairClosed(m: Registries, k: nat) {
    k !in m.live && (k in m.connList ==> m.connList[k] !in m.live)
  }

  /** What holds between two threads. */
  ghost predicate Apart(h: History, p: Pc, q: Pc) {
    && Refs(p) !! Refs(q)
    && (p.DelConn? && Between(q, p.k) ==> p.k in h.late)
    && (q.DelConn? && Between(p, q.k) ==> q.k in h.late)
  }

  ghost predicate Worked(sys: System) {
    && (forall k | k in sys.m.connList && k !in sys.m.connState ::
          exists t :: 0 <= t < |sys.pcs| && Between(sys.pcs[t], k))
    && (forall k | k in sys.m.connList && k in sys.h.closing ::
          (exists t :: 0 <= t < |sys.pcs| && Removing(sys.pcs[t], k)) || Raised in sys.pcs)
    && (forall s | s in sys.m.live ::
          s in sys.m.connList || IsListener(sys.m, s) || s in sys.h.leaked ||
          exists t :: 0 <= t < |sys.pcs| && s in Held(sys.pcs[t]))
  }

  ghost predicate Inv(sys: System) {
    && Global(sys.m, sys.h)
    && (forall t | 0 <= t < |sys.pcs| :: Local(sys.m, sys.h, sys.pcs[t]))
    && (forall t, u | 0 <= t < u < |sys.pcs| :: Apart(sys.h, sys.pcs[t], sys.pcs[u]))
    && Worked(sys)
  }

  // ---------- every step keeps it ----------

  predicate SettingUp(pc: Pc) {
    pc.OpenCreate? || pc.OpenOption? || pc.OpenBind? || pc.OpenAccept? || pc.OpenExcept?
  }

  predicate Connected(pc: Pc) {
    pc.OpenConn? || pc.OpenState? || pc.OpenTimeout?
  }

  predicate Erasing(pc: Pc) {
    pc.DelState? || pc.DelConn?
  }

  predicate Closing(pc: Pc) {
    pc.Lookup? || pc.CloseClient? || pc.CloseServer?
  }

  predicate Elsewhere(pc: Pc) {
    !SettingUp(pc) && !Connected(pc) && !Erasing(pc) && !Closing(pc)
  }

  lemma SettingUpKeepsItself(m: Registries, h: History, pc: Pc, ev: Event)
    requires Global(m, h) && Local(m, h, pc) && SettingUp(pc)
    ensures var o := Fire(m, pc, ev); Global(o.m, Record(h, o.effect)) && Local(o.m, Record(h, o.effect), o.pc)
  {
  }

  lemma RegistersItself(m: Registries, h: History, pc: Pc, ev: Event)
    requires Global(m, h) && Local(m, h, pc) && pc.OpenConn?
    ensures var o := Fire(m, pc, ev); Global(o.m, Record(h, o.effect)) && Local(o.m, Record(h, o.effect), o.pc)
  {
    assert pc.client in Refs(pc) && pc.server in Refs(pc);
    assert !IsListener(m, pc.server) && !IsListener(m, pc.client);
  }

  lemma WritesState(m: Registries, h: History, pc: Pc, ev: Event)
    requires Global(m, h) && Local(m, h, pc) && pc.OpenState?
    ensures var o := Fire(m, pc, ev); Global(o.m, Record(h, o.effect)) && Local(o.m, Record(h, o.effect), o.pc)
  {
    assert pc.client in Refs(pc) && pc.server in Refs(pc);
  }

  lemma LeavesOpen(m: Registries, h: History, pc: Pc, ev: Event)
    requires Global(m, h) && Local(m, h, pc) && pc.OpenTimeout?
    ensures var o := Fire(m, pc, ev); Global(o.m, Record(h, o.effect)) && Local(o.m, Record(h, o.effect), o.pc)
  {
    assert pc.client in Refs(pc) && pc.server in Refs(pc);
  }

  lemma ConnectedKeepsItself(m: Registries, h: History, pc: Pc, ev: Event)
    requires Global(m, h) && Local(m, h, pc) && Connected(pc)
    ensures var o := Fire(m, pc, ev); Global(o.m, Record(h, o.effect)) && Local(o.m, Record(h, o.effect), o.pc)
  {
    match pc {
      case OpenConn(_, _, _) => RegistersItself(m, h, pc, ev);
      case OpenState(_, _, _) => WritesState(m, h, pc, ev);
      case OpenTimeout(_, _, _) => LeavesOpen(m, h, pc, ev);
    }
  }

  lemma ErasingKeepsItself(m: Registries, h: History, pc: Pc, ev: Event)
    requires Global(m, h) && Local(m, h, pc) && Erasing(pc)
    ensures var o := Fire(m, pc, ev); Global(o.m, Record(h, o.effect)) && Local(o.m, Record(h, o.effect), o.pc)
  {
  }

  lemma ClosingKeepsItself(m: Registries, h: History, pc: Pc, ev: Event)
    requires Global(m, h) && Local(m, h, pc) && Closing(pc)
    ensures var o := Fire(m, pc, ev); Global(o.m, Record(h, o.effect)) && Local(o.m, Record(h, o.effect), o.pc)
  {
  }

  lemma ElsewhereKeepsItself(m: Registries, h: History, pc: Pc, ev: Event)
    requires Global(m, h) && Local(m, h, pc) && Elsewhere(pc)
    ensures var o := Fire(m, pc, ev); Global(o.m, Record(h, o.effect)) && Local(o.m, Record(h, o.effect), o.pc)
  {
  }

  lemma KeepsItself(m: Registries, h: History, pc: Pc, ev: Event)
    requires Global(m, h) && Local(m, h, pc)
    ensures var o := Fire(m, pc, ev); Global(o.m, Record(h, o.effect)) && Local(o.m, Record(h, o.effect), o.pc)
  {
    hide Global, Local, Fire, Record;
    if SettingUp(pc) { SettingUpKeepsItself(m, h, pc, ev); }
    else if Connected(pc) { ConnectedKeepsItself(m, h, pc, ev); }
    else if Erasing(pc) { ErasingKeepsItself(m, h, pc, ev); }
    else if Closing(pc) { ClosingKeepsItself(m, h, pc, ev); }
    else { ElsewhereKeepsItself(m, h, pc, ev); }
  }

  lemma SettingUpKeepsOther(m: Registries, h: History, pc: Pc, q: Pc, ev: Event)
    requires Global(m, h) && Local(m, h, pc) && Local(m, h, q) && Apart(h, pc, q) && SettingUp(pc)
    ensures var o := Fire(m, pc, ev); Local(o.m, Record(h, o.effect), q) && Apart(Record(h, o.effect), o.pc, q)
  {
  }

  lemma RegistrationKeepsOther(m: Registries, h: History, pc: Pc, q: Pc, ev: Event)
    requires Global(m, h) && Local(m, h, pc) && Local(m, h, q) && Apart(h, pc, q) && pc.OpenConn?
    ensures var o := Fire(m, pc, ev); Local(o.m, Record(h, o.effect), q) && Apart(Record(h, o.effect), o.pc, q)
  {
  }

  lemma AfterRegistrationKeepsOther(m: Registries, h: History, pc: Pc, q: Pc, ev: Event)
    requires Global(m, h) && Local(m, h, pc) && Local(m, h, q) && Apart(h, pc, q) && (pc.OpenState? || pc.OpenTimeout?)
    ensures var o := Fire(m, pc, ev); Local(o.m, Record(h, o.effect), q) && Apart(Record(h, o.effect), o.pc, q)
  {
  }

  lemma ConnectedKeepsOther(m: Registries, h: History, pc: Pc, q: Pc, ev: Event)
    requires Global(m, h) && Local(m, h, pc) && Local(m, h, q) && Apart(h, pc, q) && Connected(pc)
    ensures var o := Fire(m, pc, ev); Local(o.m, Record(h, o.effect), q) && Apart(Record(h, o.effect), o.pc, q)
  {
    hide Global, Local, Apart, Fire, Record;
    if pc.OpenConn? {
      RegistrationKeepsOther(m, h, pc, q, ev);
    } else {
      AfterRegistrationKeepsOther(m, h, pc, q, ev);
    }
  }

  lemma ErasingKeepsOther(m: Registries, h: History, pc: Pc, q: Pc, ev: Event)
    requires Global(m, h) && Local(m, h, pc) && Local(m, h, q) && Apart(h, pc, q) && Erasing(pc)
    ensures var o := Fire(m, pc, ev); Local(o.m, Record(h, o.effect), q) && Apart(Record(h, o.effect), o.pc, q)
  {
  }

  lemma ClosingKeepsOther(m: Registries, h: History, pc: Pc, q: Pc, ev: Event)
    requires Global(m, h) && Local(m, h, pc) && Local(m, h, q) && Apart(h, pc, q) && Closing(pc)
    ensures var o := Fire(m, pc, ev); Local(o.m, Record(h, o.effect), q) && Apart(Record(h, o.effect), o.pc, q)
  {
  }

  lemma ElsewhereKeepsOther(m: Registries, h: History, pc: Pc, q: Pc, ev: Event)
    requires Global(m, h) && Local(m, h, pc) && Local(m, h, q) && Apart(h, pc, q) && Elsewhere(pc)
    ensures var o := Fire(m, pc, ev); Local(o.m, Record(h, o.effect), q) && Apart(Record(h, o.effect), o.pc, q)
  {
  }

  lemma KeepsOther(m: Registries, h: History, pc: Pc, q: Pc, ev: Event)
    requires Global(m, h) && Local(m, h, pc) && Local(m, h, q) && Apart(h, pc, q)
    ensures var o := Fire(m, pc, ev); Local(o.m, Record(h, o.effect), q) && Apart(Record(h, o.effect), o.pc, q)
  {
    hide Global, Local, Apart, Fire, Record;
    if SettingUp(pc) { SettingUpKeepsOther(m, h, pc, q, ev); }
    else if Connected(pc) { ConnectedKeepsOther(m, h, pc, q, ev); }
    else if Erasing(pc) { ErasingKeepsOther(m, h, pc, q, ev); }
    else if Closing(pc) { ClosingKeepsOther(m, h, pc, q, ev); }
    else { ElsewhereKeepsOther(m, h, pc, q, ev); }
  }

  lemma ApartIsSymmetric(h: History, p: Pc, q: Pc)
    requires Apart(h, p, q)
    ensures Apart(h, q, p)
  {
  }

  /** The work on a key after a step: done by the stepping thread, or there before and not by it. */
  ghost predicate WorkMoves(m: Registries, h: History, pc: Pc, ev: Event, k: nat) {
    var o := Fire(m, pc, ev);
    var h' := Record(h, o.effect);
    && (k in o.m.connList && k !in o.m.connState ==>
          Between(o.pc, k) || (k in m.connList && k !in m.connState && !Between(pc, k)))
    && (k in o.m.connList && k in h'.closing ==>
          Removing(o.pc, k) || o.pc == Raised || (k in m.connList && k in h.closing && !Removing(pc, k)))
  }

  lemma RegistrationWorks(m: Registries, h: History, pc: Pc, ev: Event, k: nat)
    requires Global(m, h) && Local(m, h, pc) && pc.OpenConn?
    ensures WorkMoves(m, h, pc, ev, k)
  {
    assert pc.client !in h.known;
  }

  lemma StepWorks(m: Registries, h: History, pc: Pc, ev: Event, k: nat)
    requires Global(m, h) && Local(m, h, pc)
    ensures WorkMoves(m, h, pc, ev, k)
  {
    hide Global, Local;
    if pc.OpenConn? {
      hide WorkMoves;
      RegistrationWorks(m, h, pc, ev, k);
    }
  }

  /** Socket `s` is in no registered pair, not left behind, and not held by a thread at `pc`. */
  ghost predicate Loose(m: Registries, h: History, pc: Pc, s: nat) {
    s !in m.connList && !IsListener(m, s) && s !in h.leaked && s !in Held(pc)
  }

  lemma RegistrationHolds(m: Registries, h: History, pc: Pc, ev: Event, s: nat)
    requires pc.OpenConn?
    ensures var o := Fire(m, pc, ev);
      s in o.m.live && Loose(o.m, Record(h, o.effect), o.pc, s) && pc.client !in m.connList ==>
        s in m.live && Loose(m, h, pc, s)
  {
    var o := Fire(m, pc, ev);
    assert o.m.connList[pc.client] == pc.server;
    if IsListener(m, s) && pc.client !in m.connList {
      var k :| k in m.connList && m.connList[k] == s;
      assert o.m.connList[k] == s;
    }
  }

  lemma DeletionHolds(m: Registries, h: History, pc: Pc, ev: Event, s: nat)
    requires pc.DelConn? && PairClosed(m, pc.k)
    ensures var o := Fire(m, pc, ev);
      s in o.m.live && Loose(o.m, Record(h, o.effect), o.pc, s) ==> s in m.live && Loose(m, h, pc, s)
  {
    var o := Fire(m, pc, ev);
    if IsListener(m, s) {
      var j :| j in m.connList && m.connList[j] == s;
      if j != pc.k { assert j in o.m.connList && o.m.connList[j] == s; }
    }
  }

  /** A live socket is loose after a step only if it was before. */
  lemma StepHolds(m: Registries, h: History, pc: Pc, ev: Event, s: nat)
    requires Global(m, h) && Local(m, h, pc)
    ensures var o := Fire(m, pc, ev);
      s in o.m.live && Loose(o.m, Record(h, o.effect), o.pc, s) ==> s in m.live && Loose(m, h, pc, s)
  {
    if pc.OpenConn? || pc.DelConn? {
      hide Fire, Record, Loose;
      if pc.OpenConn? { RegistrationHolds(m, h, pc, ev, s); } else { DeletionHolds(m, h, pc, ev, s); }
    } else {
      OtherHolds(m, h, pc, ev, s);
    }
  }

  lemma OtherHolds(m: Registries, h: History, pc: Pc, ev: Event, s: nat)
    requires !pc.OpenConn? && !pc.DelConn?
    ensures var o := Fire(m, pc, ev);
      s in o.m.live && Loose(o.m, Record(h, o.effect), o.pc, s) ==> s in m.live && Loose(m, h, pc, s)
  {
  }

  lemma RunKeepsWork(sys: System, t: nat, ev: Event)
    requires Inv(sys) && t < |sys.pcs|
    ensures Worked(Next(sys, Run(t, ev)))
  {
    hide Global, Local, Apart, Fire, Record, Between, Removing, Held;
    var n := Next(sys, Run(t, ev));
    forall k | k in n.m.connList && k !in n.m.connState ensures exists u :: 0 <= u < |n.pcs| && Between(n.pcs[u], k) {
      StepWorks(sys.m, sys.h, sys.pcs[t], ev, k);
      var u := if Between(n.pcs[t], k) then t else var u :| 0 <= u < |sys.pcs| && Between(sys.pcs[u], k); u;
      assert Between(n.pcs[u], k);
    }
    forall k | k in n.m.connList && k in n.h.closing
      ensures (exists u :: 0 <= u < |n.pcs| && Removing(n.pcs[u], k)) || Raised in n.pcs
    {
      StepWorks(sys.m, sys.h, sys.pcs[t], ev, k);
      if Removing(n.pcs[t], k) {
      } else if n.pcs[t] == Raised {
        assert n.pcs[t] in n.pcs;
      } else if Raised in sys.pcs {
        RaisedStays(sys, t, ev);
      } else {
        var u :| 0 <= u < |sys.pcs| && Removing(sys.pcs[u], k);
        assert Removing(n.pcs[u], k);
      }
    }
    forall s | s in n.m.live
      ensures s in n.m.connList || IsListener(n.m, s) || s in n.h.leaked || exists u ::
        0 <= u < |n.pcs| && s in Held(n.pcs[u])
    {
      StepHolds(sys.m, sys.h, sys.pcs[t], ev, s);
      if s in Held(n.pcs[t]) {
      } else if s in sys.m.live && Loose(sys.m, sys.h, sys.pcs[t], s) {
        var u :| 0 <= u < |sys.pcs| && s in Held(sys.pcs[u]);
        assert s in Held(n.pcs[u]);
      }
    }
  }

  lemma RaisedStays(sys: System, t: nat, ev: Event)
    requires t < |sys.pcs| && Raised in sys.pcs
    ensures Raised in Next(sys, Run(t, ev)).pcs
  {
    var u :| 0 <= u < |sys.pcs| && sys.pcs[u] == Raised;
    assert Next(sys, Run(t, ev)).pcs[u] == Raised;
  }

  lemma RunStepKeeps(sys: System, t: nat, ev: Event)
    requires Inv(sys) && t < |sys.pcs|
    ensures Inv(Next(sys, Run(t, ev)))
  {
    RunKeepsWork(sys, t, ev);
    hide Global, Local, Apart, Fire, Record, Worked;
    var n := Next(sys, Run(t, ev));
    KeepsItself(sys.m, sys.h, sys.pcs[t], ev);
    forall u | 0 <= u < |sys.pcs| && u != t
      ensures Local(n.m, n.h, n.pcs[u]) && Apart(n.h, n.pcs[t], n.pcs[u]) && Apart(n.h, n.pcs[u], n.pcs[t])
    {
      if u < t { ApartIsSymmetric(sys.h, sys.pcs[u], sys.pcs[t]); }
      KeepsOther(sys.m, sys.h, sys.pcs[t], sys.pcs[u], ev);
      ApartIsSymmetric(n.h, n.pcs[t], n.pcs[u]);
    }
    forall u, v | 0 <= u < v < |sys.pcs| ensures Apart(n.h, n.pcs[u], n.pcs[v]) {
      if u != t && v != t { StaysApart(sys.h, Fire(sys.m, sys.pcs[t], ev).effect, sys.pcs[u], sys.pcs[v]); }
    }
  }

  lemma StaysApart(h: History, e: Effect, p: Pc, q: Pc)
    requires Apart(h, p, q)
    ensures Apart(Record(h, e), p, q)
  {
  }

  /** Before its first step a call refers to nothing and works on nothing. */
  lemma EntryIsInert(m: Registries, h: History, call: Call)
    ensures var e := Entry(call); Local(m, h, e) && Refs(e) == {} && Held(e) == {} && !e.DelConn?
    ensures forall k :: !Between(Entry(call), k) && !Removing(Entry(call), k)
  {
  }

  lemma InertIsApart(h: History, p: Pc, q: Pc)
    requires Refs(p) == {} && !p.DelConn? && forall k :: !Between(p, k)
    ensures Apart(h, p, q) && Apart(h, q, p)
  {
  }

  lemma BeginKeepsWork(sys: System, t: nat, call: Call)
    requires Worked(sys) && t < |sys.pcs| && sys.pcs[t] == Idle
    ensures Worked(Next(sys, Begin(t, call)))
  {
    var n := Next(sys, Begin(t, call));
    forall k | k in n.m.connList && k !in n.m.connState ensures exists u :: 0 <= u < |n.pcs| && Between(n.pcs[u], k) {
      var u :| 0 <= u < |sys.pcs| && Between(sys.pcs[u], k);
      assert Between(n.pcs[u], k);
    }
    forall k | k in n.m.connList && k in n.h.closing
      ensures (exists u :: 0 <= u < |n.pcs| && Removing(n.pcs[u], k)) || Raised in n.pcs
    {
      if Raised in sys.pcs {
        var u :| 0 <= u < |sys.pcs| && sys.pcs[u] == Raised;
        assert n.pcs[u] == Raised;
      } else {
        var u :| 0 <= u < |sys.pcs| && Removing(sys.pcs[u], k);
        assert Removing(n.pcs[u], k);
      }
    }
    forall s | s in n.m.live && s !in n.m.connList && !IsListener(n.m, s) && s !in n.h.leaked
      ensures exists u :: 0 <= u < |n.pcs| && s in Held(n.pcs[u])
    {
      var u :| 0 <= u < |sys.pcs| && s in Held(sys.pcs[u]);
      assert s in Held(n.pcs[u]);
    }
  }

  lemma BeginKeeps(sys: System, t: nat, call: Call)
    requires Inv(sys)
    ensures Inv(Next(sys, Begin(t, call)))
  {
    hide Global, Local, Apart, Worked, Refs, Held, Between, Removing;
    if t < |sys.pcs| && sys.pcs[t] == Idle {
      BeginKeepsWork(sys, t, call);
      EntryIsInert(sys.m, sys.h, call);
      var n := Next(sys, Begin(t, call));
      forall u, v | 0 <= u < v < |n.pcs| ensures Apart(n.h, n.pcs[u], n.pcs[v]) {
        if u == t { InertIsApart(n.h, n.pcs[t], n.pcs[v]); }
        if v == t { InertIsApart(n.h, n.pcs[t], n.pcs[u]); }
      }
    }
  }

  lemma NextKeeps(sys: System, a: Action)
    requires Inv(sys)
    ensures Inv(Next(sys, a))
  {
    hide Inv;
    match a
    case Begin(t, call) => BeginKeeps(sys, t, call);
    case Run(t, ev) => if t < |sys.pcs| { RunStepKeeps(sys, t, ev); }
  }

  lemma {:induction false} RunKeeps(sys: System, acts: seq<Action>)
    requires Inv(sys)
    ensures Inv(RunFrom(sys, acts))
    decreases |acts|
  {
    hide Inv;
    if acts != [] {
      NextKeeps(sys, acts[0]);
      RunKeeps(Next(sys, acts[0]), acts[1..]);
    }
  }

  lemma StartHolds(threads: nat)
    ensures Inv(Start(threads))
  {
  }

  // ---------- what follows ----------

  /** In every interleaving of opening, closing, cleaning and reading threads: a state is 0 or 1; a
      connection without a state is one that some thread is between the two writes or the two deletions
      of; and a state without a connection is one that was marked after its deletion. */
  lemma KeysDifferOnlyUnderWork(threads: nat, acts: seq<Action>, k: nat)
    ensures var sys := RunFrom(Start(threads), acts);
      && (k in sys.m.connState ==> sys.m.connState[k] in {0, 1})
      && (k in sys.m.connList && k !in sys.m.connState ==> exists t :: 0 <= t < |sys.pcs| && Between(sys.pcs[t], k))
      && (k in sys.m.connState && k !in sys.m.connList ==> k in sys.h.late)
  {
    StartHolds(threads);
    RunKeeps(Start(threads), acts);
  }

  /** The sockets, in every interleaving: an open one is registered, held by a thread that is opening, or
      was left behind by an open that raised; and a registered pair is open unless its removal began. */
  lemma NoSocketIsLost(threads: nat, acts: seq<Action>, s: nat)
    ensures var sys := RunFrom(Start(threads), acts);
      && (s in sys.m.live ==>
            s in sys.m.connList || IsListener(sys.m, s) || s in sys.h.leaked ||
            exists t :: 0 <= t < |sys.pcs| && s in Held(sys.pcs[t]))
      && (s in sys.m.connList && s !in sys.h.closing ==> s in sys.m.live && sys.m.connList[s] in sys.m.live)
  {
    StartHolds(threads);
    RunKeeps(Start(threads), acts);
  }

  /** Without a late mark, a state is missing exactly if its connection is gone or some thread is between
      the two writes or the two deletions. */
  lemma StateIsMissingExactlyWhen(sys: System, k: nat)
    requires Inv(sys) && k !in sys.h.late && k in sys.h.known
    ensures k !in sys.m.connState <==>
      k !in sys.m.connList || exists u :: 0 <= u < |sys.pcs| && Between(sys.pcs[u], k)
  {
    hide Apart;
    forall u | 0 <= u < |sys.pcs| && Between(sys.pcs[u], k) ensures k !in sys.m.connState {
      assert Local(sys.m, sys.h, sys.pcs[u]);
    }
  }

  /** When a deletion raises, for a key that was never marked late: that of a state exactly when its
      connection is gone, or another thread is between the two writes or the two deletions of it; that of
      a connection never. */
  lemma DeletionRaisesExactlyWhen(threads: nat, acts: seq<Action>, t: nat, ev: Event)
    requires t < |RunFrom(Start(threads), acts).pcs|
    requires var sys := RunFrom(Start(threads), acts); Erasing(sys.pcs[t]) && sys.pcs[t].k !in sys.h.late
    ensures var sys := RunFrom(Start(threads), acts);
            var k := sys.pcs[t].k;
      Fire(sys.m, sys.pcs[t], ev).pc == Raised <==>
        && sys.pcs[t].DelState?
        && (k !in sys.m.connList || exists u :: 0 <= u < |sys.pcs| && u != t && Between(sys.pcs[u], k))
  {
    hide Apart, RunFrom, Start, Global, Worked;
    StartHolds(threads);
    RunKeeps(Start(threads), acts);
    var sys := RunFrom(Start(threads), acts);
    assert Local(sys.m, sys.h, sys.pcs[t]);
    StateIsMissingExactlyWhen(sys, sys.pcs[t].k);
  }

  /** Once every call has returned, no key was marked late and no open raised, both registries have the
      same keys and the open sockets are exactly the registered pairs. */
  lemma RegistriesAgreeAtRest(threads: nat, acts: seq<Action>)
    requires var sys := RunFrom(Start(threads), acts);
      (forall t | 0 <= t < |sys.pcs| :: sys.pcs[t] == Idle) && sys.h.late == {} && sys.h.leaked == {}
    ensures var m := RunFrom(Start(threads), acts).m;
      m.connState.Keys == m.connList.Keys && forall s :: s in m.live <==> s in m.connList || IsListener(m, s)
  {
    hide Apart, RunFrom, Start, Local;
    StartHolds(threads);
    RunKeeps(Start(threads), acts);
    var sys := RunFrom(Start(threads), acts);
    forall s ensures s in sys.m.live <==> s in sys.m.connList || IsListener(sys.m, s) {
      if IsListener(sys.m, s) { var k :| k in sys.m.connList && sys.m.connList[k] == s; assert k !in sys.h.closing; }
      if s in sys.m.connList { assert s !in sys.h.closing; }
    }
  }

  lemma One(sys: System, a: Action)
    ensures RunFrom(sys, [a]) == Next(sys, a)
  {
    assert RunFrom(Next(sys, a), [a][1..]) == Next(sys, a);
  }

  lemma {:induction false} RunConcat(sys: System, first: seq<Action>, second: seq<Action>)
    ensures RunFrom(sys, first + second) == RunFrom(RunFrom(sys, first), second)
    decreases |first|
  {
    if first == [] {
      assert first + second == second;
    } else {
      assert (first + second)[1..] == first[1..] + second;
      RunConcat(Next(sys, first[0]), first[1..], second);
    }
  }

  lemma Take(z: System, acts: seq<Action>, a: Action) returns (acts': seq<Action>)
    ensures RunFrom(z, acts') == Next(RunFrom(z, acts), a)
  {
    acts' := acts + [a];
    RunConcat(z, acts, [a]);
    One(RunFrom(z, acts), a);
  }

  /** A thread that is about to look `k` up closes both its sockets while no other thread runs. */
  lemma ShutsPair(z: System, acts: seq<Action>, t: nat, k: nat, after: After) returns (acts': seq<Action>)
    requires var sys := RunFrom(z, acts);
      t < |sys.pcs| && sys.pcs[t] == Lookup(k, after) && k in sys.m.connList
    ensures var sys, n := RunFrom(z, acts), RunFrom(z, acts');
      n.m == sys.m.(live := sys.m.live - {k} - {sys.m.connList[k]}) && n.pcs == sys.pcs[t := DelState(k, after)]
  {
    hide RunFrom;
    var sys := RunFrom(z, acts);
    var s, pcs := sys.m.connList[k], sys.pcs;
    acts' := Take(z, acts, Run(t, Good));
    assert RunFrom(z, acts') == sys.(pcs := pcs[t := CloseClient(k, s, after)]);
    acts' := Take(z, acts', Run(t, Good));
    var n := RunFrom(z, acts');
    assert n.m == sys.m.(live := sys.m.live - {k}) && n.pcs == pcs[t := CloseServer(k, s, after)];
    acts' := Take(z, acts', Run(t, Good));
  }

  lemma ClosesPair(z: System, acts: seq<Action>, t: nat, k: nat) returns (acts': seq<Action>)
    requires var sys := RunFrom(z, acts); t < |sys.pcs| && sys.pcs[t] == Idle && k in sys.m.connList
    ensures var sys, n := RunFrom(z, acts), RunFrom(z, acts');
      n.m == sys.m.(live := sys.m.live - {k} - {sys.m.connList[k]}) && n.pcs == sys.pcs[t := DelState(k, Return)]
  {
    hide RunFrom;
    var sys := RunFrom(z, acts);
    acts' := Take(z, acts, Begin(t, Call.Close(k)));
    assert RunFrom(z, acts') == sys.(pcs := sys.pcs[t := CloseCheck(k)]);
    acts' := Take(z, acts', Run(t, Good));
    assert RunFrom(z, acts') == sys.(pcs := sys.pcs[t := Lookup(k, Return)]);
    acts' := ShutsPair(z, acts', t, k, Return);
  }

  /** A thread that closes a socket that is not registered changes nothing. */
  lemma CloseUnknownAlone(sys: System, t: nat, k: nat)
    requires t < |sys.pcs| && sys.pcs[t] == Idle && k !in sys.m.connList
    ensures RunFrom(sys, [Begin(t, Call.Close(k)), Run(t, Good)]) == sys
  {
    var acts := [Begin(t, Call.Close(k)), Run(t, Good)];
    assert acts[1..] == [Run(t, Good)] && acts[1..][1..] == [];
    var n := sys.(pcs := sys.pcs[t := CloseCheck(k)]);
    assert Next(sys, acts[0]) == n && sys.pcs[t := CloseCheck(k)][t := Idle] == sys.pcs;
    One(n, Run(t, Good));
    assert Next(n, Run(t, Good)) == sys;
  }

  /** A thread that closes a registered socket while no other thread runs does what the sequential
      `ServerModule.Close` promises. */
  lemma CloseAlone(sys: System, t: nat, k: nat) returns (acts: seq<Action>)
    requires t < |sys.pcs| && sys.pcs[t] == Idle && k in sys.m.connList && k in sys.m.connState
    ensures var n := RunFrom(sys, acts);
      && n.m.connList == sys.m.connList - {k} && n.m.connState == sys.m.connState - {k}
      && n.m.live == sys.m.live - {k} - {sys.m.connList[k]} && n.pcs == sys.pcs
  {
    assert RunFrom(sys, []) == sys;
    hide RunFrom;
    acts := ClosesPair(sys, [], t, k);
    acts := DeletesState(sys, acts, t, k, Return);
    acts := DeletesConn(sys, acts, t, k, Return);
  }

  lemma DeletesState(z: System, acts: seq<Action>, t: nat, k: nat, after: After) returns (acts': seq<Action>)
    requires var sys := RunFrom(z, acts);
      t < |sys.pcs| && sys.pcs[t] == DelState(k, after) && k in sys.m.connState
    ensures var sys, n := RunFrom(z, acts), RunFrom(z, acts');
      n.m == sys.m.(connState := sys.m.connState - {k}) && n.pcs == sys.pcs[t := DelConn(k, after)] && n.h == sys.h
  {
    hide RunFrom;
    acts' := Take(z, acts, Run(t, Good));
  }

  lemma DeletesConn(z: System, acts: seq<Action>, t: nat, k: nat, after: After) returns (acts': seq<Action>)
    requires var sys := RunFrom(z, acts);
      t < |sys.pcs| && sys.pcs[t] == DelConn(k, after)
    ensures var sys, n := RunFrom(z, acts), RunFrom(z, acts');
      && n.m == sys.m.(connList := sys.m.connList - {k}) && n.h == sys.h
      && n.pcs == sys.pcs[t := if k in sys.m.connList then Resume(after) else Raised]
  {
    hide RunFrom;
    acts' := Take(z, acts, Run(t, Good));
  }

  /** The race is real, for any two threads that close the same socket: if both looked it up before
      either deleted its state, the second deletion raises. */
  lemma SecondCloseRaises(sys: System, t: nat, u: nat, k: nat) returns (acts: seq<Action>)
    requires t < |sys.pcs| && u < |sys.pcs| && t != u && sys.pcs[t] == sys.pcs[u] == Idle
    requires k in sys.m.connList && k in sys.m.connState
    ensures RunFrom(sys, acts).pcs == sys.pcs[t := DelConn(k, Return)][u := Raised]
  {
    assert RunFrom(sys, []) == sys;
    hide RunFrom;
    acts := ClosesPair(sys, [], t, k);
    assert RunFrom(sys, acts).pcs == sys.pcs[t := DelState(k, Return)];
    acts := ClosesPair(sys, acts, u, k);
    var n := RunFrom(sys, acts);
    assert n.m.connState == sys.m.connState && n.pcs == sys.pcs[t := DelState(k, Return)][u := DelState(k, Return)];
    acts := DeletesState(sys, acts, t, k, Return);
    n := RunFrom(sys, acts);
    assert k !in n.m.connState && n.pcs == sys.pcs[t := DelConn(k, Return)][u := DelState(k, Return)];
    acts := Take(sys, acts, Run(u, Good));
  }

  lemma WritesLateMark(z: System, acts: seq<Action>, v: nat, k: nat) returns (acts': seq<Action>)
    requires var sys := RunFrom(z, acts); v < |sys.pcs| && sys.pcs[v] == ReadMark(k) && k !in sys.m.connState
    ensures var sys, n := RunFrom(z, acts), RunFrom(z, acts');
      && n.m == sys.m.(connState := sys.m.connState[k := 0]) && n.pcs == sys.pcs[v := Idle]
      && k in n.h.late
  {
    hide RunFrom;
    acts' := Take(z, acts, Run(v, Good));
  }

  /** With a late mark even the deletion of the connection can raise: the mark between the two deletions
      of one thread lets the other delete the state again, and then the connection is gone. */
  lemma LateMarkMakesDeletionRaise(sys: System, t: nat, u: nat, v: nat, k: nat) returns (acts: seq<Action>)
    requires t < |sys.pcs| && u < |sys.pcs| && v < |sys.pcs| && t != u && t != v && u != v
    requires sys.pcs[t] == sys.pcs[u] == DelState(k, Return) && sys.pcs[v] == ReadMark(k)
    requires k in sys.m.connList && k in sys.m.connState
    ensures var n := RunFrom(sys, acts); u < |n.pcs| && n.pcs[u] == Raised && k in n.h.late
  {
    assert RunFrom(sys, []) == sys;
    hide RunFrom;
    acts := DeletesState(sys, [], t, k, Return);
    acts := WritesLateMark(sys, acts, v, k);
    acts := DeletesState(sys, acts, u, k, Return);
    acts := DeletesConn(sys, acts, t, k, Return);
    acts := DeletesConn(sys, acts, u, k, Return);
  }

  /** A thread that opens a port while no other thread runs, and whose first attempt connects, registers a
      new pair with state 1. */
  lemma OpenAlone(sys: System, t: nat, port: nat) returns (acts: seq<Action>)
    requires t < |sys.pcs| && sys.pcs[t] == Idle && port <= MAX_PORT && port != TP_SERVER_PORT
    ensures var n, server, client := RunFrom(sys, acts), sys.m.next, sys.m.next + 1;
      && n.m.connList == sys.m.connList[client := server] && n.m.connState == sys.m.connState[client := 1]
      && n.m.live == sys.m.live + {server, client} && n.pcs == sys.pcs
  {
    hide RunFrom;
    var s, c := sys.m.next, sys.m.next + 1;
    acts := Listens(sys, t, port);
    acts := Take(sys, acts, Run(t, Good));
    var m := sys.m.(live := sys.m.live + {s} + {c}, next := c + 1);
    assert RunFrom(sys, acts) == sys.(m := m, pcs := sys.pcs[t := OpenConn(port, c, s)]);
    acts := EntersBoth(sys, acts, t, port, c, s);
  }

  lemma EntersBoth(z: System, acts: seq<Action>, t: nat, port: nat, c: nat, s: nat) returns (acts': seq<Action>)
    requires var sys := RunFrom(z, acts);
      t < |sys.pcs| && sys.pcs[t] == OpenConn(port, c, s)
    ensures var sys, n := RunFrom(z, acts), RunFrom(z, acts');
      && n.m == sys.m.(connList := sys.m.connList[c := s], connState := sys.m.connState[c := 1])
      && n.pcs == sys.pcs[t := if c in sys.m.live then Idle else OpenExcept(port, s)]
  {
    hide RunFrom;
    var sys := RunFrom(z, acts);
    var m := sys.m;
    acts' := Take(z, acts, Run(t, Good));
    var n := RunFrom(z, acts');
    assert n.m == m.(connList := m.connList[c := s]) && n.pcs == sys.pcs[t := OpenState(port, c, s)];
    acts' := Take(z, acts', Run(t, Good));
    n := RunFrom(z, acts');
    assert n.m == m.(connList := m.connList[c := s], connState := m.connState[c := 1]);
    assert n.pcs == sys.pcs[t := OpenTimeout(port, c, s)];
    acts' := Take(z, acts', Run(t, Good));
  }

  lemma Listens(sys: System, t: nat, port: nat) returns (acts: seq<Action>)
    requires t < |sys.pcs| && sys.pcs[t] == Idle && port <= MAX_PORT && port != TP_SERVER_PORT
    ensures var s := sys.m.next;
      RunFrom(sys, acts) ==
        sys.(m := sys.m.(live := sys.m.live + {s}, next := s + 1), pcs := sys.pcs[t := OpenAccept(port, s)])
  {
    assert RunFrom(sys, []) == sys;
    hide RunFrom;
    var pcs, s := sys.pcs, sys.m.next;
    var m := sys.m.(live := sys.m.live + {s}, next := s + 1);
    acts := Take(sys, [], Begin(t, Call.Open(port)));
    assert RunFrom(sys, acts) == sys.(pcs := pcs[t := OpenCreate(port, false)]);
    acts := Take(sys, acts, Run(t, Good));
    assert RunFrom(sys, acts) == sys.(m := m, pcs := pcs[t := OpenOption(port, s)]);
    acts := Take(sys, acts, Run(t, Good));
    assert RunFrom(sys, acts) == sys.(m := m, pcs := pcs[t := OpenBind(port, s)]);
    acts := Take(sys, acts, Run(t, Good));
  }

  /** A read of a registered socket that meets the end of the stream sets its state to 0; it changes
      nothing else, and a read of any other socket changes nothing at all. */
  lemma EndOfStreamAlone(sys: System, t: nat, k: nat) returns (acts: seq<Action>)
    requires t < |sys.pcs| && sys.pcs[t] == Idle
    ensures var n := RunFrom(sys, acts);
      && n.pcs == sys.pcs && n.m.connList == sys.m.connList && n.m.live == sys.m.live
      && n.m.connState == (if k in sys.m.connList then sys.m.connState[k := 0] else sys.m.connState)
  {
    assert RunFrom(sys, []) == sys;
    hide RunFrom;
    acts := Take(sys, [], Begin(t, Call.Read(k)));
    assert RunFrom(sys, acts) == sys.(pcs := sys.pcs[t := ReadCheck(k)]);
    acts := Take(sys, acts, Run(t, Bad));
    if k in sys.m.connList {
      assert RunFrom(sys, acts) == sys.(pcs := sys.pcs[t := ReadRecv(k)]);
      acts := Marks(sys, acts, t, k);
    }
  }

  lemma Marks(z: System, acts: seq<Action>, t: nat, k: nat) returns (acts': seq<Action>)
    requires var sys := RunFrom(z, acts); t < |sys.pcs| && sys.pcs[t] == ReadRecv(k)
    ensures var sys, n := RunFrom(z, acts), RunFrom(z, acts');
      n.m == sys.m.(connState := sys.m.connState[k := 0]) && n.pcs == sys.pcs[t := Idle]
  {
    hide RunFrom;
    var sys := RunFrom(z, acts);
    acts' := Take(z, acts, Run(t, Bad));
    assert RunFrom(z, acts') == sys.(pcs := sys.pcs[t := ReadMark(k)]);
    acts' := Take(z, acts', Run(t, Bad));
  }

  /** A read that meets data changes nothing. */
  lemma DataAlone(sys: System, t: nat, k: nat)
    requires t < |sys.pcs| && sys.pcs[t] == ReadRecv(k)
    ensures Next(sys, Run(t, Good)) == sys.(pcs := sys.pcs[t := Idle])
  {
  }

  /** How a round of opening can fail, after its listener was created: the option, the bind, or the wait for
      a client. The listener is closed again, the registries stay as they are, and the thread tries again;
      with a port above 65535 the bind raises instead and the listener stays open. */
  lemma FailedRoundAlone(sys: System, t: nat, port: nat, s: nat)
    requires t < |sys.pcs| && s in sys.m.live
    ensures sys.pcs[t] == OpenOption(port, s) ==> AfterFailure(sys, t, port, s)
    ensures sys.pcs[t] == OpenBind(port, s) && port <= MAX_PORT ==> AfterFailure(sys, t, port, s)
    ensures sys.pcs[t] == OpenAccept(port, s) ==> AfterFailure(sys, t, port, s)
    ensures sys.pcs[t] == OpenBind(port, s) && port > MAX_PORT ==>
      forall ev :: var n := Next(sys, Run(t, ev)); n.m == sys.m && n.pcs == sys.pcs[t := Raised] && s in n.h.leaked
  {
    assert sys.pcs[t := OpenExcept(port, s)][t := OpenCreate(port, true)] == sys.pcs[t := OpenCreate(port, true)];
  }

  ghost predicate AfterFailure(sys: System, t: nat, port: nat, s: nat) {
    var n := Next(Next(sys, Run(t, Bad)), Run(t, Good));
    t < |sys.pcs| && n.m == sys.m.(live := sys.m.live - {s}) && n.pcs == sys.pcs[t := OpenCreate(port, true)]
  }

  /** If the socket itself cannot be created, the first round raises and every later one is repeated. */
  lemma NoSocketAlone(sys: System, t: nat, port: nat, bound: bool)
    requires t < |sys.pcs| && sys.pcs[t] == OpenCreate(port, bound)
    ensures Next(sys, Run(t, Bad)) == if bound then sys else sys.(pcs := sys.pcs[t := Raised])
  {
    if bound { assert sys.pcs[t := sys.pcs[t]] == sys.pcs; }
  }

  /** A thread that cleans while no other thread runs empties both registries and closes every registered
      socket. */
  lemma CleanAlone(sys: System, t: nat) returns (acts: seq<Action>)
    requires t < |sys.pcs| && sys.pcs[t] == Idle && sys.m.connState.Keys == sys.m.connList.Keys
    ensures var n := RunFrom(sys, acts);
      && n.pcs == sys.pcs && n.m.connList == map[] && n.m.connState == map[]
      && forall s :: s in n.m.live <==> s in sys.m.live && s !in sys.m.connList && !IsListener(sys.m, s)
  {
    assert RunFrom(sys, []) == sys;
    hide RunFrom;
    var ids := Listed(sys.m.connList.Keys);
    assert (set k | k in ids) == sys.m.connList.Keys;
    acts := Take(sys, [], Begin(t, Call.Clean));
    assert RunFrom(sys, acts) == sys.(pcs := sys.pcs[t := CleanList]);
    acts := Take(sys, acts, Run(t, Keys(ids)));
    assert RunFrom(sys, acts) == sys.(pcs := sys.pcs[t := CleanNext(ids)]);
    acts := CleansRest(sys, acts, t, ids);
  }

  lemma {:induction false} Listed(keys: set<nat>) returns (ids: seq<nat>)
    ensures forall k :: k in ids <==> k in keys
    ensures forall i, j | 0 <= i < j < |ids| :: ids[i] != ids[j]
    decreases keys
  {
    ids := [];
    if keys != {} {
      var k :| k in keys;
      ids := Listed(keys - {k});
      assert k !in ids;
      ids := ids + [k];
    }
  }

  lemma {:induction false} CleansRest(z: System, acts: seq<Action>, t: nat, rest: seq<nat>) returns (acts': seq<Action>)
    requires var sys := RunFrom(z, acts);
      && t < |sys.pcs| && sys.pcs[t] == CleanNext(rest)
      && (set k | k in rest) == sys.m.connList.Keys == sys.m.connState.Keys
    requires forall i, j | 0 <= i < j < |rest| :: rest[i] != rest[j]
    ensures var sys, n := RunFrom(z, acts), RunFrom(z, acts');
      && n.pcs == sys.pcs[t := Idle] && n.m.connList == map[] && n.m.connState == map[]
      && forall s :: s in n.m.live <==> s in sys.m.live && s !in sys.m.connList && !IsListener(sys.m, s)
    decreases |rest|
  {
    hide RunFrom;
    var sys := RunFrom(z, acts);
    acts' := Take(z, acts, Run(t, Good));
    if rest != [] {
      var k, after := rest[0], Cleaning(rest[1..]);
      assert k in (set j | j in rest);
      assert RunFrom(z, acts') == sys.(pcs := sys.pcs[t := Lookup(k, after)]);
      acts' := ShutsPair(z, acts', t, k, after);
      acts' := DeletesState(z, acts', t, k, after);
      acts' := DeletesConn(z, acts', t, k, after);
      var n := RunFrom(z, acts');
      assert n.m.connList == sys.m.connList - {k} && n.m.connState == sys.m.connState - {k};
      RestWithout(rest, sys.m.connList, k);
      acts' := CleansRest(z, acts', t, rest[1..]);
      ListenersWithout(sys.m, n.m, k);
    }
  }

  lemma RestWithout(rest: seq<nat>, conn: map<nat, nat>, k: nat)
    requires rest != [] && rest[0] == k && (set j | j in rest) == conn.Keys
    requires forall i, j | 0 <= i < j < |rest| :: rest[i] != rest[j]
    ensures (set j | j in rest[1..]) == conn.Keys - {k} == (conn - {k}).Keys
  {
    forall j ensures j in (set j | j in rest[1..]) <==> j in conn.Keys - {k} {
      if j in rest[1..] { assert j in (set i | i in rest); }
      if j in conn.Keys - {k} { assert j in (set i | i in rest); }
    }
  }

  lemma ListenersWithout(m: Registries, n: Registries, k: nat)
    requires k in m.connList && n.connList == m.connList - {k}
    ensures forall s :: IsListener(m, s) <==> IsListener(n, s) || s == m.connList[k]
  {
    forall s ensures IsListener(m, s) <==> IsListener(n, s) || s == m.connList[k] {
      if IsListener(m, s) {
        var j :| j in m.connList && m.connList[j] == s;
        if j != k { assert j in n.connList && n.connList[j] == s; }
      }
      if IsListener(n, s) {
        var j :| j in n.connList && n.connList[j] == s;
        assert m.connList[j] == s;
      }
    }
  }
}
