/** spline_motion.py, `call_service`: any number of overlapping calls, each with its own event and
    result holder, whose callbacks run on executor threads at any later time. */
module CallService {

  datatype Option<T> = None | Some(value: T)

  /** A response, tagged with the future (the request) that it answers. */
  datatype Response = Response(future: nat, body: int)

  /** `event` and `result_holder[0]` of one call. */
  datatype Cell = Cell(event: bool, holder: Option<Response>)

  /** A request in flight: unanswered, answered with a body, or completed with an exception. */
  datatype Answer = Pending | Body(body: int) | Failed

  /** `callback` is the cell captured by the done-callback, once that is attached. */
  datatype Progress = NotRun | Written | Done
  datatype Future = Future(answer: Answer, callback: Option<nat>, progress: Progress)

  datatype Phase = Fresh | Issued | Waiting | Finished | TimedOut | Returned(result: Option<Response>)

  datatype Call = Call(cell: nat, future: nat, phase: Phase, late: bool)

  datatype Table = Table(cells: seq<Cell>, futures: seq<Future>, calls: seq<Call>)

  datatype Action =
    | Enter                          // event = Event(); result_holder = [None]
    | Issue(c: nat)                  // client.call_async(req)
    | Attach(c: nat)                 // future.add_done_callback(callback)
    | Deliver(f: nat, answer: Answer) // the middleware completes the future
    | WriteHolder(f: nat)            // result_holder[0] = future.result(), or the except branch
    | SetEvent(f: nat)               // event.set()
    | Wake(c: nat)                   // event.wait returns True
    | Expire(c: nat)                 // event.wait returns False
    | Return(c: nat)

  function Next(s: Table, a: Action): Table {
    match a
    case Enter =>
      s.(cells := s.cells + [Cell(false, None)], calls := s.calls + [Call(|s.cells|, 0, Fresh, false)])
    case Issue(c) =>
      if c < |s.calls| && s.calls[c].phase == Fresh then
        s.(futures := s.futures + [Future(Pending, None, NotRun)],
           calls := s.calls[c := s.calls[c].(future := |s.futures|, phase := Issued)])
      else s
    case Attach(c) =>
      if c < |s.calls| && s.calls[c].phase == Issued && s.calls[c].future < |s.futures| then
        var f := s.calls[c].future;
        s.(futures := s.futures[f := s.futures[f].(callback := Some(s.calls[c].cell))],
           calls := s.calls[c := s.calls[c].(phase := Waiting)])
      else s
    case Deliver(f, answer) =>
      if f < |s.futures| && s.futures[f].answer == Pending
      then s.(futures := s.futures[f := s.futures[f].(answer := answer)]) else s
    case WriteHolder(f) =>
      if Runnable(s, f, NotRun) then
        var cell := s.futures[f].callback.value;
        var wrote := match s.futures[f].answer
          case Body(b) => s.cells[cell := s.cells[cell].(holder := Some(Response(f, b)))]
          case _ => s.cells;
        s.(cells := wrote, futures := s.futures[f := s.futures[f].(progress := Written)])
      else s
    case SetEvent(f) =>
      if Runnable(s, f, Written) then
        var cell := s.futures[f].callback.value;
        s.(cells := s.cells[cell := s.cells[cell].(event := true)],
           futures := s.futures[f := s.futures[f].(progress := Done)])
      else s
    case Wake(c) =>
      if IsWaiting(s, c) && s.cells[s.calls[c].cell].event
      then s.(calls := s.calls[c := s.calls[c].(phase := Finished)]) else s
    case Expire(c) =>
      if IsWaiting(s, c) && !s.cells[s.calls[c].cell].event
      then s.(calls := s.calls[c := s.calls[c].(phase := TimedOut, late := true)]) else s
    case Return(c) =>
      if c < |s.calls| && s.calls[c].cell < |s.cells| && s.calls[c].phase == Finished then
        s.(calls := s.calls[c := s.calls[c].(phase := Returned(s.cells[s.calls[c].cell].holder))])
      else if c < |s.calls| && s.calls[c].phase == TimedOut then
        s.(calls := s.calls[c := s.calls[c].(phase := Returned(None))])
      else s
  }

  predicate IsWaiting(s: Table, c: nat) {
    c < |s.calls| && s.calls[c].phase == Waiting && s.calls[c].cell < |s.cells|
  }

  /** The done-callback of a completed future may take its next step. */
  predicate Runnable(s: Table, f: nat, progress: Progress) {
    && f < |s.futures| && s.futures[f].answer != Pending && s.futures[f].progress == progress
    && s.futures[f].callback.Some? && s.futures[f].callback.value < |s.cells|
  }

  /** The same steps on the mutable cells the threads and callbacks share. */
  class ServiceNode {
    var cells: seq<Cell>
    var futures: seq<Future>
    var calls: seq<Call>

    ghost function View(): Table
      reads this
    {
      Table(cells, futures, calls)
    }

    /** Holders and returned results belong to the calls that own them. */
    ghost predicate Valid()
      reads this
    {
      Inv(View())
    }

    constructor ()
      ensures Valid() && View() == EMPTY
    {
      cells, futures, calls := [], [], [];
    }

    /** `call_service` up to its wait. */
    method CallerStep(a: Action)
      requires Valid() && (a.Enter? || a.Issue? || a.Attach?)
      modifies this
      ensures Valid() && View() == Next(old(View()), a)
    {
      hide Inv;
      NextKeeps(View(), a);
      match a {
        case Enter =>
          calls := calls + [Call(|cells|, 0, Fresh, false)];
          cells := cells + [Cell(false, None)];
        case Issue(c) =>
          if c < |calls| && calls[c].phase == Fresh {
            calls := calls[c := calls[c].(future := |futures|, phase := Issued)];
            futures := futures + [Future(Pending, None, NotRun)];
          }
        case Attach(c) =>
          if c < |calls| && calls[c].phase == Issued && calls[c].future < |futures| {
            var f := calls[c].future;
            futures := futures[f := futures[f].(callback := Some(calls[c].cell))];
            calls := calls[c := calls[c].(phase := Waiting)];
          }
      }
    }

    /** The middleware, and the callback closure on an executor thread. */
    method CallbackStep(a: Action)
      requires Valid() && (a.Deliver? || a.WriteHolder? || a.SetEvent?)
      modifies this
      ensures Valid() && View() == Next(old(View()), a)
    {
      hide Inv;
      NextKeeps(View(), a);
      match a {
        case Deliver(f, answer) =>
          if f < |futures| && futures[f].answer == Pending {
            futures := futures[f := futures[f].(answer := answer)];
          }
        case WriteHolder(f) =>
          if f < |futures| && futures[f].answer != Pending && futures[f].progress == NotRun &&
             futures[f].callback.Some? && futures[f].callback.value < |cells| {
            var cell := futures[f].callback.value;
            match futures[f].answer {
              case Body(b) => cells := cells[cell := cells[cell].(holder := Some(Response(f, b)))];
              case _ =>
            }
            futures := futures[f := futures[f].(progress := Written)];
          }
        case SetEvent(f) =>
          if f < |futures| && futures[f].answer != Pending && futures[f].progress == Written &&
             futures[f].callback.Some? && futures[f].callback.value < |cells| {
            var cell := futures[f].callback.value;
            cells := cells[cell := cells[cell].(event := true)];
            futures := futures[f := futures[f].(progress := Done)];
          }
      }
    }

    /** The end of the wait and the return. */
    method ReturnStep(a: Action)
      requires Valid() && (a.Wake? || a.Expire? || a.Return?)
      modifies this
      ensures Valid() && View() == Next(old(View()), a)
    {
      hide Inv;
      NextKeeps(View(), a);
      match a {
        case Wake(c) =>
          if c < |calls| && calls[c].phase == Waiting && calls[c].cell < |cells| && cells[calls[c].cell].event {
            calls := calls[c := calls[c].(phase := Finished)];
          }
        case Expire(c) =>
          if c < |calls| && calls[c].phase == Waiting && calls[c].cell < |cells| && !cells[calls[c].cell].event {
            calls := calls[c := calls[c].(phase := TimedOut, late := true)];
          }
        case Return(c) =>
          if c < |calls| && calls[c].cell < |cells| && calls[c].phase == Finished {
            calls := calls[c := calls[c].(phase := Returned(cells[calls[c].cell].holder))];
          } else if c < |calls| && calls[c].phase == TimedOut {
            calls := calls[c := calls[c].(phase := Returned(None))];
          }
      }
    }
  }

  function RunFrom(s: Table, acts: seq<Action>): Table
    decreases |acts|
  {
    if acts == [] then s else RunFrom(Next(s, acts[0]), acts[1..])
  }

  const EMPTY := Table([], [], [])

  predicate HasFuture(c: Call) {
    c.phase != Fresh
  }

  /** Call `c` owns cell `c`, and no two calls share a future. */
  ghost predicate CallsApart(s: Table) {
    && |s.cells| == |s.calls|
    && (forall c | 0 <= c < |s.calls| ::
          s.calls[c].cell == c && (HasFuture(s.calls[c]) ==> s.calls[c].future < |s.futures|))
    && (forall c, d | 0 <= c < d < |s.calls| ::
          HasFuture(s.calls[c]) && HasFuture(s.calls[d]) ==> s.calls[c].future != s.calls[d].future)
  }

  /** A future's callback captured the cell of the one call that issued it. */
  ghost predicate CallbacksApart(s: Table) {
    forall f | 0 <= f < |s.futures| && s.futures[f].callback.Some? ::
      var c := s.futures[f].callback.value; c < |s.calls| && HasFuture(s.calls[c]) && s.calls[c].future == f
  }

  ghost predicate Inv(s: Table) {
    CallsApart(s) && CallbacksApart(s) && CellsFollow(s)
  }

  /** The cell of call `c` follows the callback of its future: the holder is written once, with the answer
      if there is one, and the event is raised after that; and a call that did not expire returns what it
      then finds in the holder. */
  ghost predicate CellFollows(s: Table, c: nat)
    requires c < |s.cells| && c < |s.calls|
  {
    && (s.calls[c].phase == TimedOut ==> s.calls[c].late)
    && (s.calls[c].late ==> s.calls[c].phase == TimedOut || s.calls[c].phase == Returned(None))
    && (!HasFuture(s.calls[c]) ==> s.cells[c] == Cell(false, None))
    && (HasFuture(s.calls[c]) ==>
          && s.calls[c].future < |s.futures|
          && Answers(s.calls[c], s.cells[c], s.futures[s.calls[c].future]))
  }

  ghost predicate Answers(call: Call, cell: Cell, future: Future) {
    && (future.callback.Some? ==> future.callback == Some(call.cell))
    && (future.progress != NotRun ==> future.answer != Pending && future.callback.Some?)
    && (cell.event ==> future.progress == Done)
    && cell.holder == Holds(future, call.future)
    && (call.phase == Finished ==> cell.event)
    && (call.phase.Returned? && !call.late ==> cell.event && call.phase.result == cell.holder)
  }

  /** What the holder contains once the callback is as far as it is. */
  function Holds(future: Future, f: nat): Option<Response> {
    if future.progress != NotRun && future.answer.Body? then Some(Response(f, future.answer.body)) else None
  }

  ghost predicate CellsFollow(s: Table) {
    |s.cells| == |s.calls| && forall c | 0 <= c < |s.calls| :: CellFollows(s, c)
  }

  /** `r` is the answer delivered to the request that call `c` issued. */
  predicate Owns(s: Table, c: nat, r: Response) {
    && c < |s.calls| && HasFuture(s.calls[c]) && s.calls[c].future == r.future
    && r.future < |s.futures| && s.futures[r.future].answer == Body(r.body)
  }

  lemma EnterKeeps(s: Table)
    requires Inv(s)
    ensures Inv(Next(s, Enter))
  {
    var s' := Next(s, Enter);
    forall c | 0 <= c < |s'.calls| ensures CellFollows(s', c) {
      if c < |s.calls| { assert CellFollows(s, c); }
    }
  }

  lemma IssueKeeps(s: Table, c: nat)
    requires Inv(s)
    ensures Inv(Next(s, Issue(c)))
  {
    var s' := Next(s, Issue(c));
    forall d | 0 <= d < |s'.calls| ensures CellFollows(s', d) { assert CellFollows(s, d); }
  }

  lemma AttachKeeps(s: Table, c: nat)
    requires Inv(s)
    ensures Inv(Next(s, Attach(c)))
  {
    var s' := Next(s, Attach(c));
    forall d | 0 <= d < |s'.calls| ensures CellFollows(s', d) { assert CellFollows(s, d); }
  }

  lemma DeliverKeeps(s: Table, f: nat, answer: Answer)
    requires Inv(s)
    ensures Inv(Next(s, Deliver(f, answer)))
  {
    var s' := Next(s, Deliver(f, answer));
    forall d | 0 <= d < |s'.calls| ensures CellFollows(s', d) { assert CellFollows(s, d); }
  }

  lemma WriteKeeps(s: Table, f: nat)
    requires Inv(s)
    ensures Inv(Next(s, WriteHolder(f)))
  {
    var s' := Next(s, WriteHolder(f));
    forall d | 0 <= d < |s'.calls| ensures CellFollows(s', d) { assert CellFollows(s, d); }
  }

  lemma SetKeeps(s: Table, f: nat)
    requires Inv(s)
    ensures Inv(Next(s, SetEvent(f)))
  {
    var s' := Next(s, SetEvent(f));
    forall d | 0 <= d < |s'.calls| ensures CellFollows(s', d) { assert CellFollows(s, d); }
  }

  lemma WakeKeeps(s: Table, c: nat)
    requires Inv(s)
    ensures Inv(Next(s, Wake(c)))
  {
    var s' := Next(s, Wake(c));
    forall d | 0 <= d < |s'.calls| ensures CellFollows(s', d) { assert CellFollows(s, d); }
  }

  lemma ExpireKeeps(s: Table, c: nat)
    requires Inv(s)
    ensures Inv(Next(s, Expire(c)))
  {
    var s' := Next(s, Expire(c));
    forall d | 0 <= d < |s'.calls| ensures CellFollows(s', d) { assert CellFollows(s, d); }
  }

  lemma ReturnKeeps(s: Table, c: nat)
    requires Inv(s)
    ensures Inv(Next(s, Return(c)))
  {
    var s' := Next(s, Return(c));
    forall d | 0 <= d < |s'.calls| ensures CellFollows(s', d) { assert CellFollows(s, d); }
  }

  lemma NextKeeps(s: Table, a: Action)
    requires Inv(s)
    ensures Inv(Next(s, a))
  {
    match a
    case Enter => EnterKeeps(s);
    case Issue(c) => IssueKeeps(s, c);
    case Attach(c) => AttachKeeps(s, c);
    case Deliver(f, answer) => DeliverKeeps(s, f, answer);
    case WriteHolder(f) => WriteKeeps(s, f);
    case SetEvent(f) => SetKeeps(s, f);
    case Wake(c) => WakeKeeps(s, c);
    case Expire(c) => ExpireKeeps(s, c);
    case Return(c) => ReturnKeeps(s, c);
  }

  lemma {:induction false} RunKeeps(s: Table, acts: seq<Action>)
    requires Inv(s)
    ensures Inv(RunFrom(s, acts))
    decreases |acts|
  {
    if acts != [] {
      NextKeeps(s, acts[0]);
      RunKeeps(Next(s, acts[0]), acts[1..]);
    }
  }

  /** However calls overlap and whatever order answers, failures and timeouts come in, a call that has
      returned gave the answer to its own request if and only if it did not expire and that request was
      answered, and nothing if and only if it expired or its request failed. */
  lemma ReturnsAnswerExactlyWhen(acts: seq<Action>, c: nat, b: int)
    requires var s := RunFrom(EMPTY, acts); c < |s.calls| && s.calls[c].phase.Returned?
    ensures var s := RunFrom(EMPTY, acts);
            var call := s.calls[c];
      && call.future < |s.futures|
      && (call.phase == Returned(Some(Response(call.future, b))) <==>
            !call.late && s.futures[call.future].answer == Body(b))
      && (call.phase == Returned(None) <==> call.late || s.futures[call.future].answer == Failed)
  {
    RunKeeps(EMPTY, acts);
    assert CellFollows(RunFrom(EMPTY, acts), c);
  }

  /** A call returns nothing or the answer to its own request, and no two calls return the same answer. */
  lemma NoMixUp(acts: seq<Action>, c: nat, d: nat, r: Response)
    requires var s := RunFrom(EMPTY, acts); c < |s.calls| && s.calls[c].phase == Returned(Some(r))
    ensures var s := RunFrom(EMPTY, acts); Owns(s, c, r)
    ensures var s := RunFrom(EMPTY, acts);
      d < |s.calls| && s.calls[d].phase == Returned(Some(r)) ==> c == d
  {
    RunKeeps(EMPTY, acts);
    var s := RunFrom(EMPTY, acts);
    assert CellFollows(s, c);
    if d < |s.calls| { assert CellFollows(s, d); }
  }

  /** An answer to a call that timed out is never returned by any call, however the run goes on. */
  lemma LateAnswersAreDropped(acts: seq<Action>, more: seq<Action>, c: nat, d: nat, r: Response)
    requires var s := RunFrom(EMPTY, acts); c < |s.calls| && s.calls[c].late && s.calls[c].future == r.future
    ensures var t := RunFrom(RunFrom(EMPTY, acts), more);
      d < |t.calls| ==> t.calls[d].phase != Returned(Some(r))
  {
    RunKeeps(EMPTY, acts);
    RunKeeps(RunFrom(EMPTY, acts), more);
    LateStays(RunFrom(EMPTY, acts), more, c);
    var t := RunFrom(RunFrom(EMPTY, acts), more);
    assert CellFollows(t, c);
    if d < |t.calls| { assert CellFollows(t, d); }
  }

  lemma {:induction false} LateStays(s: Table, acts: seq<Action>, c: nat)
    requires Inv(s) && c < |s.calls| && s.calls[c].late
    ensures var t := RunFrom(s, acts); c < |t.calls| && t.calls[c].late && t.calls[c].future == s.calls[c].future
    decreases |acts|
  {
    if acts != [] {
      NextKeeps(s, acts[0]);
      LateNext(s, acts[0], c);
      LateStays(Next(s, acts[0]), acts[1..], c);
    }
  }

  lemma LateNext(s: Table, a: Action, c: nat)
    requires Inv(s) && c < |s.calls| && s.calls[c].late
    ensures var t := Next(s, a); c < |t.calls| && t.calls[c].late && t.calls[c].future == s.calls[c].future
  {
    assert CellFollows(s, c);
  }

  /** A call whose event is up does not expire any more, however the run goes on. */
  lemma {:induction false} AnsweredNeverExpires(s: Table, acts: seq<Action>, c: nat)
    requires Inv(s) && c < |s.calls| && !s.calls[c].late && s.cells[c].event
    ensures var t := RunFrom(s, acts); c < |t.calls| && !t.calls[c].late
    decreases |acts|
  {
    if acts != [] {
      NextKeeps(s, acts[0]);
      EventStays(s, acts[0], c);
      AnsweredNeverExpires(Next(s, acts[0]), acts[1..], c);
    }
  }

  lemma EventStays(s: Table, a: Action, c: nat)
    requires Inv(s) && c < |s.calls| && !s.calls[c].late && s.cells[c].event
    ensures var t := Next(s, a); c < |t.calls| && c < |t.cells| && !t.calls[c].late && t.cells[c].event
  {
    assert CellFollows(s, c);
  }

  lemma {:induction false} RunConcat(s: Table, first: seq<Action>, second: seq<Action>)
    ensures RunFrom(s, first + second) == RunFrom(RunFrom(s, first), second)
    decreases |first|
  {
    if first == [] {
      assert first + second == second;
    } else {
      assert (first + second)[1..] == first[1..] + second;
      RunConcat(Next(s, first[0]), first[1..], second);
    }
  }

  lemma Take(z: Table, acts: seq<Action>, a: Action) returns (acts': seq<Action>)
    ensures acts' == acts + [a] && RunFrom(z, acts') == Next(RunFrom(z, acts), a)
  {
    acts' := acts + [a];
    RunConcat(z, acts, [a]);
    assert RunFrom(RunFrom(z, acts), [a]) == RunFrom(Next(RunFrom(z, acts), a), []);
  }

  /** A new call stands at `phase`; everything older is as in `s`. */
  ghost predicate AtCall(s: Table, t: Table, cell: Cell, future: Future, phase: Phase) {
    t == Table(s.cells + [cell], s.futures + [future], s.calls + [Call(|s.cells|, |s.futures|, phase, false)])
  }

  /** From any state a call that is made, answered before it expires and then scheduled returns that
      answer, and None if the request failed. */
  lemma AnswerArrives(s: Table, answer: Answer) returns (acts: seq<Action>)
    requires Inv(s) && answer != Pending
    ensures var t, c, f := RunFrom(s, acts), |s.calls|, |s.futures|;
            var result := if answer.Body? then Some(Response(f, answer.body)) else None;
      |t.calls| == c + 1 && t.calls[c].phase == Returned(result) && !t.calls[c].late
  {
    acts := Asks(s);
    hide RunFrom;
    var c, f := |s.calls|, |s.futures|;
    var result := if answer.Body? then Some(Response(f, answer.body)) else None;
    acts := Take(s, acts, Deliver(f, answer));
    assert AtCall(s, RunFrom(s, acts), Cell(false, None), Future(answer, Some(c), NotRun), Waiting);
    acts := Take(s, acts, WriteHolder(f));
    assert AtCall(s, RunFrom(s, acts), Cell(false, result), Future(answer, Some(c), Written), Waiting);
    acts := Take(s, acts, SetEvent(f));
    assert AtCall(s, RunFrom(s, acts), Cell(true, result), Future(answer, Some(c), Done), Waiting);
    acts := Take(s, acts, Wake(c));
    assert AtCall(s, RunFrom(s, acts), Cell(true, result), Future(answer, Some(c), Done), Finished);
    acts := Take(s, acts, Return(c));
  }

  /** And one that is not answered in time returns nothing. */
  lemma SilenceExpires(s: Table) returns (acts: seq<Action>)
    requires Inv(s)
    ensures var t, c := RunFrom(s, acts), |s.calls|;
      |t.calls| == c + 1 && t.calls[c].late && t.calls[c].phase == Returned(None)
  {
    acts := Asks(s);
    hide RunFrom;
    acts := Take(s, acts, Expire(|s.calls|));
    acts := Take(s, acts, Return(|s.calls|));
  }

  lemma Asks(s: Table) returns (acts: seq<Action>)
    requires Inv(s)
    ensures AtCall(s, RunFrom(s, acts), Cell(false, None), Future(Pending, Some(|s.calls|), NotRun), Waiting)
  {
    assert RunFrom(s, []) == s;
    hide RunFrom;
    var c := |s.calls|;
    acts := Take(s, [], Enter);
    acts := Take(s, acts, Issue(c));
    assert AtCall(s, RunFrom(s, acts), Cell(false, None), Future(Pending, None, NotRun), Issued);
    acts := Take(s, acts, Attach(c));
  }
}
