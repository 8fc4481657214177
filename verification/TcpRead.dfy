/** `client_socket_read` / `server_socket_read` and the flushes: the retry loop with its timeout, and
    the byte stream of one connection. */
module TcpRead {

  type Bytes = seq<bv8>

  const BUFF_SIZE: nat := 4096

  /** What happens around one receive: bytes that arrive before it, how many of the pending bytes it
      takes if it may choose, and what else can go wrong. */
  datatype Fault = NoFault | PeerClosed | OddTimeout | SocketError
  datatype Step = Step(arrive: Bytes, chunk: nat, fault: Fault)

  /** The outcome of `sock.recv`. `Data([])` is the end of the stream. */
  datatype Recv = Data(bytes: Bytes) | TimedOut | Failed

  datatype ReadResult = Got(data: Bytes) | Dead | Error | TimedOutRead | BadValue | Waiting

  /** How many bytes a receive of up to `n` takes from a non-empty buffer. */
  function Taken(pending: Bytes, chunk: nat, n: nat): (k: nat)
    requires pending != [] && n > 0
    ensures 1 <= k <= n && k <= |pending|
  {
    var most := if n < |pending| then n else |pending|;
    if chunk < 1 then 1 else if chunk > most then most else chunk
  }

  /** A receive of zero bytes returns the empty string at once. */
  function Receive(pending: Bytes, step: Step, n: nat): (o: Recv)
    ensures o.Data? ==> |o.bytes| <= n && |o.bytes| <= |pending|
  {
    if n == 0 then Data([])
    else if step.fault.OddTimeout? || step.fault.SocketError? then Failed
    else if pending != [] then Data(pending[..Taken(pending, step.chunk, n)])
    else if step.fault.PeerClosed? then Data([])
    else TimedOut
  }

  /** The outcomes of receiving again and again, as long as every receive times out. */
  function Outcomes(pending: Bytes, steps: seq<Step>, n: nat): (os: seq<Recv>)
    ensures |os| <= |steps|
  {
    if steps == [] then []
    else
      var o := Receive(pending + steps[0].arrive, steps[0], n);
      if o == TimedOut then [o] + Outcomes(pending + steps[0].arrive, steps[1..], n) else [o]
  }

  /** The receives a read with timeout `t >= 0` waits for: one per hundredth of a second, at least one. */
  function Limit(t: real): (k: nat)
    requires t >= 0.0
    ensures k >= 1
  {
    var hundredths := -((-(100.0 * t)).Floor);
    if hundredths < 1 then 1 else hundredths
  }

  /** That is the first count at which the elapsed time 0.01 * count reaches the timeout. */
  lemma LimitIsExact(t: real, k: nat)
    requires t >= 0.0 && k >= 1
    ensures 0.01 * k as real >= t <==> k >= Limit(t)
  {
    var x := 100.0 * t;
    assert ((-x).Floor as real) <= -x < (-x).Floor as real + 1.0;
    assert k >= Limit(t) <==> k >= -((-x).Floor);
    assert 0.01 * k as real >= t <==> k as real >= x;
    if k as real >= x {
      assert (-x).Floor as real > -x - 1.0;
      assert -(k as real) <= -x;
    }
  }

  ghost predicate AllTimedOut(os: seq<Recv>, k: nat) {
    k <= |os| && forall i | 0 <= i < k :: os[i] == TimedOut
  }

  /** The result of a read that met the outcomes `os` and used the first `used` of them. `timeout` is
      -1 for ever. These clauses leave exactly one result for every list of outcomes. */
  ghost predicate ReadsAs(r: ReadResult, used: nat, timeout: real, os: seq<Recv>) {
    match r
    case TimedOutRead => timeout >= 0.0 && used == Limit(timeout) && AllTimedOut(os, used)
    case Waiting => used == |os| && AllTimedOut(os, used) && (timeout >= 0.0 ==> used < Limit(timeout))
    case BadValue => false
    case _ =>
      && 1 <= used <= |os| && AllTimedOut(os, used - 1)
      && (timeout >= 0.0 ==> used <= Limit(timeout))
      && match os[used - 1] {
           case Data(bytes) => r == if bytes == [] then Dead else Got(bytes)
           case Failed => r == Error
           case TimedOut => false
         }
  }

  /** Every result is reached in one way only. */
  lemma ReadIsDetermined(timeout: real, os: seq<Recv>, r: ReadResult, used: nat, r': ReadResult, used': nat)
    requires timeout == -1.0 || timeout >= 0.0
    requires ReadsAs(r, used, timeout, os) && ReadsAs(r', used', timeout, os)
    ensures r == r' && used == used'
  {
  }

  /** One more receive uncovers one more outcome. */
  lemma FirstOutcome(pending: Bytes, steps: seq<Step>, n: nat)
    requires steps != []
    ensures var os, o := Outcomes(pending, steps, n), Receive(pending + steps[0].arrive, steps[0], n);
            && os != [] && os[0] == o
            && (o == TimedOut ==> os[1..] == Outcomes(pending + steps[0].arrive, steps[1..], n))
  {
  }

  /** What select reports about a socket, beside readability. */
  datatype Select = Select(writable: bool, exceptional: bool)

  /** 0, -1, -2 and -3; or still running. */
  datatype FlushResult = Flushed | NotAlive | FlushError | CheckFailed | Running

  class Connection {
    var pending: Bytes        // received by the kernel, not yet read
    var registered: bool
    var state: int            // the entry in the state registry
    ghost var arrived: Bytes  // all the peer sent so far
    ghost var consumed: Bytes // all that was returned or flushed

    /** No byte is lost, duplicated or reordered. */
    ghost predicate Valid()
      reads this
    {
      arrived == consumed + pending
    }

    constructor ()
      ensures Valid() && registered && state == 1 && arrived == [] && consumed == []
    {
      pending, registered, state, arrived, consumed := [], true, 1, [], [];
    }

    /** `sock.recv(n)`. */
    method Recv(step: Step, n: nat) returns (o: Recv)
      requires Valid()
      modifies this`pending, this`arrived, this`consumed
      ensures Valid()
      ensures o == Receive(old(pending) + step.arrive, step, n)
      ensures arrived == old(arrived) + step.arrive
      ensures consumed == old(consumed) + if o.Data? then o.bytes else []
      ensures pending == (old(pending) + step.arrive)[if o.Data? then |o.bytes| else 0..]
    {
      pending := pending + step.arrive;
      arrived := arrived + step.arrive;
      assert arrived == consumed + pending;
      if n == 0 { return Data([]); }
      if step.fault.OddTimeout? || step.fault.SocketError? { return Failed; }
      if pending != [] {
        var k := Taken(pending, step.chunk, n);
        o := Data(pending[..k]);
        consumed := consumed + pending[..k];
        pending := pending[k..];
        return;
      }
      if step.fault.PeerClosed? { return Data([]); }
      return TimedOut;
    }

    /** `client_socket_read(sock, length, timeout)`; `steps` is what its receives meet, and `Waiting`
        says that the loop is still running when they are used up. */
    method Read(length: int, timeout: real, steps: seq<Step>) returns (r: ReadResult, used: nat)
      requires Valid()
      modifies this
      ensures Valid() && registered == old(registered)
      ensures r.BadValue? <==> (length != -1 && length < 0) || (timeout != -1.0 && timeout < 0.0)
      ensures !r.BadValue? && !registered ==> r == Dead && used == 0
      ensures !r.BadValue? && registered ==>
        ReadsAs(r, used, timeout, Outcomes(old(pending), steps, if length == -1 then BUFF_SIZE else length))
      ensures r.Got? ==> 1 <= |r.data| <= if length == -1 then BUFF_SIZE else length
      ensures consumed == old(consumed) + if r.Got? then r.data else []
      ensures state == if r.Dead? && registered then 0 else old(state)
    {
      hide Outcomes, Receive, Limit;
      used := 0;
      if length != -1 && length < 0 { return BadValue, 0; }
      if timeout != -1.0 && timeout < 0.0 { return BadValue, 0; }
      if !registered { return Dead, 0; }
      var rxdSize: nat := if length == -1 then BUFF_SIZE else length;
      var timeCnt: nat := 0;
      ghost var os := Outcomes(pending, steps, rxdSize);
      while used < |steps|
        invariant Valid() && registered && state == old(state) && consumed == old(consumed)
        invariant used <= |steps| && used <= |os| && AllTimedOut(os, used)
        invariant os[used..] == Outcomes(pending, steps[used..], rxdSize)
        invariant timeout >= 0.0 ==> timeCnt == used < Limit(timeout)
        decreases |steps| - used
      {
        FirstOutcome(pending, steps[used..], rxdSize);
        assert steps[used..][1..] == steps[used + 1..] && os[used..][1..] == os[used + 1..];
        var rxd := Recv(steps[used], rxdSize);
        used := used + 1;
        match rxd {
          case TimedOut =>
            if timeout != -1.0 {
              timeCnt := timeCnt + 1;
              LimitIsExact(timeout, timeCnt);
              if 0.01 * timeCnt as real >= timeout { return TimedOutRead, used; }
            }
          case Failed =>
            return Error, used;
          case Data(bytes) =>
            if |bytes| == 0 {
              state := 0;
              return Dead, used;
            }
            return Got(bytes), used;
        }
      }
      return Waiting, used;
    }

    /** `client_socket_flush`; `selects[i]` is what the i-th select says beside readability, and
        `Running` that the loop is still running when the steps are used up. The first round that
        decides gives the result. */
    method Flush(steps: seq<Step>, selects: seq<Select>) returns (r: FlushResult, dropped: Bytes)
      requires Valid() && |selects| == |steps|
      modifies this`pending, this`arrived, this`consumed
      ensures Valid() && consumed == old(consumed) + dropped
      ensures r == NotAlive <==> !registered
      ensures registered ==> FlushesAs(r, old(pending), steps, selects)
      ensures r == Flushed ==> pending == []
    {
      hide AtSelect, Verdict, Left;
      r, dropped := Running, [];
      if !registered { return NotAlive, []; }
      if steps != [] { FirstRound(pending, steps); }
      for i := 0 to |steps|
        invariant Valid() && consumed == old(consumed) + dropped && r == Running
        invariant i < |steps| ==> pending + steps[i].arrive == AtSelect(old(pending), steps, i)
        invariant GoesOn(old(pending), steps, selects, i)
      {
        var part;
        r, part := FlushRound(steps[i], selects[i]);
        dropped := dropped + part;
        if r != Running { return; }
        NextRound(old(pending), steps, i);
      }
    }

    /** One round: select, and a receive if the socket is readable. */
    method FlushRound(step: Step, select: Select) returns (r: FlushResult, part: Bytes)
      requires Valid()
      modifies this`pending, this`arrived, this`consumed
      ensures Valid() && consumed == old(consumed) + part
      ensures r == Verdict(old(pending) + step.arrive, step.fault, select)
      ensures r == Running ==> pending == Left(old(pending) + step.arrive, step.chunk)
      ensures r == Flushed ==> pending == []
    {
      hide Verdict, Left, Receive;
      pending := pending + step.arrive;
      arrived := arrived + step.arrive;
      part := [];
      ReadableRound(pending, step, select);
      if select.exceptional { return CheckFailed, part; }
      if pending != [] || step.fault.PeerClosed? || step.fault.SocketError? {
        var dummy := Recv(Step([], step.chunk, step.fault), BUFF_SIZE);
        if dummy.Failed? { return FlushError, part; }
        return Running, dummy.bytes;
      }
      return if select.writable then Flushed else Running, part;
    }
  }

  /** What is left of the pending bytes after a round that received some, or had none to receive. */
  function Left(pending: Bytes, chunk: nat): Bytes {
    if pending == [] then [] else pending[Taken(pending, chunk, BUFF_SIZE)..]
  }

  /** The bytes that are pending when round `i` of a flush looks at the socket. */
  function AtSelect(pending: Bytes, steps: seq<Step>, i: nat): Bytes
    requires i < |steps|
  {
    (if i == 0 then pending else Left(AtSelect(pending, steps, i - 1), steps[i - 1].chunk)) + steps[i].arrive
  }

  lemma FirstRound(pending: Bytes, steps: seq<Step>)
    requires steps != []
    ensures AtSelect(pending, steps, 0) == pending + steps[0].arrive
  {
  }

  lemma NextRound(pending: Bytes, steps: seq<Step>, i: nat)
    requires i < |steps|
    ensures i + 1 < |steps| ==>
      AtSelect(pending, steps, i + 1) == Left(AtSelect(pending, steps, i), steps[i].chunk) + steps[i + 1].arrive
  {
  }

  /** What a round makes of what it sees: it goes on (`Running`) or ends the flush. */
  function Verdict(atSelect: Bytes, fault: Fault, select: Select): (r: FlushResult)
    ensures r != NotAlive
  {
    if select.exceptional then CheckFailed
    else if fault.SocketError? || (atSelect != [] && fault.OddTimeout?) then FlushError
    else if atSelect != [] || fault.PeerClosed? || !select.writable then Running
    else Flushed
  }

  /** A round that finds the socket readable receives, and one that does not looks whether it may write. */
  lemma ReadableRound(atSelect: Bytes, step: Step, select: Select)
    ensures select.exceptional ==> Verdict(atSelect, step.fault, select) == CheckFailed
    ensures !select.exceptional && (atSelect != [] || step.fault.PeerClosed? || step.fault.SocketError?) ==>
      var o := Receive(atSelect + [], Step([], step.chunk, step.fault), BUFF_SIZE);
      && o != TimedOut
      && (o == Failed ==> Verdict(atSelect, step.fault, select) == FlushError)
      && (o.Data? ==>
            && Verdict(atSelect, step.fault, select) == Running
            && Left(atSelect, step.chunk) == (atSelect + [])[|o.bytes|..])
    ensures !select.exceptional && atSelect == [] && !step.fault.PeerClosed? && !step.fault.SocketError? ==>
      && Verdict(atSelect, step.fault, select) == (if select.writable then Flushed else Running)
      && Left(atSelect, step.chunk) == []
  {
    assert atSelect + [] == atSelect;
  }

  /** The first `n` rounds go on. */
  ghost predicate GoesOn(pending: Bytes, steps: seq<Step>, selects: seq<Select>, n: nat)
    requires n <= |steps| == |selects|
  {
    forall j | 0 <= j < n :: Verdict(AtSelect(pending, steps, j), steps[j].fault, selects[j]) == Running
  }

  /** `r` is the verdict of the first round that does not go on. */
  ghost predicate FlushesAs(r: FlushResult, pending: Bytes, steps: seq<Step>, selects: seq<Select>)
    requires |selects| == |steps|
  {
    if r == Running then GoesOn(pending, steps, selects, |steps|)
    else exists n | 0 <= n < |steps| ::
      GoesOn(pending, steps, selects, n) && r == Verdict(AtSelect(pending, steps, n), steps[n].fault, selects[n])
  }

  /** Nothing fails: the peer may close, and no select reports an exceptional condition. */
  ghost predicate NoFailures(steps: seq<Step>, selects: seq<Select>) {
    && |selects| == |steps|
    && forall i | 0 <= i < |steps| ::
      (steps[i].fault == NoFault || steps[i].fault == PeerClosed) && !selects[i].exceptional
  }

  /** Round `i` finds nothing pending, the peer still there and the socket writable. */
  ghost predicate Ends(pending: Bytes, steps: seq<Step>, selects: seq<Select>, i: nat)
    requires i < |steps| == |selects|
  {
    AtSelect(pending, steps, i) == [] && steps[i].fault == NoFault && selects[i].writable
  }

  /** When a flush ends: exactly when some round finds nothing pending before the peer has closed, on a
      writable socket. */
  method FlushEndsExactlyWhen(c: Connection, steps: seq<Step>, selects: seq<Select>) returns (r: FlushResult)
    requires c.Valid() && c.registered && NoFailures(steps, selects)
    modifies c
    ensures c.Valid() && (r == Flushed || r == Running)
    ensures r == Flushed <==> exists i :: 0 <= i < |steps| && Ends(old(c.pending), steps, selects, i)
  {
    hide AtSelect;
    var dropped;
    r, dropped := c.Flush(steps, selects);
    assert forall i | 0 <= i < |steps| ::
      Ends(old(c.pending), steps, selects, i) <==>
        Verdict(AtSelect(old(c.pending), steps, i), steps[i].fault, selects[i]) == Flushed;
  }

  /** Nothing arrives, every receive takes as much as it may, the socket is always writable, and the peer
      closes at round `close`. */
  ghost predicate DrainsUntil(steps: seq<Step>, selects: seq<Select>, close: nat) {
    && NoFailures(steps, selects) && close <= |steps|
    && (forall i | 0 <= i < |steps| :: steps[i].arrive == [] && steps[i].chunk >= 4096 && selects[i].writable)
    && (forall i | 0 <= i < |steps| :: steps[i].fault == PeerClosed <==> close <= i)
  }

  lemma LeftByBuffer(pending: Bytes, chunk: nat)
    requires chunk >= 4096
    ensures |Left(pending, chunk)| == if |pending| <= 4096 then 0 else |pending| - 4096
  {
  }

  lemma {:induction false} DrainsByBuffers(pending: Bytes, steps: seq<Step>, selects: seq<Select>, close: nat, i: nat)
    requires DrainsUntil(steps, selects, close) && i < |steps|
    ensures AtSelect(pending, steps, i) == [] <==> |pending| <= i * 4096
    ensures |pending| > i * 4096 ==> |AtSelect(pending, steps, i)| == |pending| - i * 4096
  {
    hide Left, AtSelect;
    if i == 0 {
      FirstRound(pending, steps);
    } else {
      DrainsByBuffers(pending, steps, selects, close, i - 1);
      NextRound(pending, steps, i - 1);
      LeftByBuffer(AtSelect(pending, steps, i - 1), steps[i - 1].chunk);
    }
  }

  /** What a caller can tell beforehand: such a flush ends if and only if the pending bytes can be drained
      in fewer rounds than the peer stays; once the peer has closed first, it never ends. */
  method FlushBeatsCloseExactlyWhen(c: Connection, steps: seq<Step>, selects: seq<Select>, close: nat)
    returns (r: FlushResult)
    requires c.Valid() && c.registered && DrainsUntil(steps, selects, close)
    modifies c
    ensures c.Valid() && (r == Flushed || r == Running)
    ensures r == Flushed <==> |old(c.pending)| <= (close - 1) * 4096
  {
    hide AtSelect, Left;
    r := FlushEndsExactlyWhen(c, steps, selects);
    ghost var p := old(c.pending);
    if r == Flushed {
      ghost var i :| 0 <= i < |steps| && Ends(p, steps, selects, i);
      DrainsByBuffers(p, steps, selects, close, i);
    }
    if |p| <= (close - 1) * 4096 {
      DrainsByBuffers(p, steps, selects, close, close - 1);
      assert Ends(p, steps, selects, close - 1);
    }
  }

  /** In particular a flush that starts after the peer has closed never ends, however many rounds it
      makes: the socket stays readable and yields nothing. */
  method FlushAfterCloseNeverEnds(c: Connection, steps: seq<Step>, selects: seq<Select>) returns (r: FlushResult)
    requires c.Valid() && c.registered && |selects| == |steps|
    requires forall i | 0 <= i < |steps| :: steps[i].fault == PeerClosed && !selects[i].exceptional
    modifies c
    ensures c.Valid() && r == Running
  {
    r := FlushEndsExactlyWhen(c, steps, selects);
  }

  /** A read of length zero is taken for a disconnect although nothing happened to the connection. */
  method ZeroLengthRead(c: Connection, timeout: real, steps: seq<Step>) returns (r: ReadResult, used: nat)
    requires c.Valid() && c.registered && steps != [] && (timeout == -1.0 || timeout >= 0.0)
    modifies c
    ensures r == Dead && used == 1 && c.state == 0 && c.consumed == old(c.consumed)
  {
    r, used := c.Read(0, timeout, steps);
    assert Outcomes(old(c.pending), steps, 0)[0] == Data([]);
  }

  /** On a connection without faults a read reports a disconnect if and only if its length is zero. */
  method FalseDisconnectExactlyWhen(c: Connection, length: int, timeout: real, steps: seq<Step>)
    returns (r: ReadResult, used: nat)
    requires c.Valid() && c.registered && steps != [] && length >= -1 && (timeout == -1.0 || timeout >= 0.0)
    requires forall i | 0 <= i < |steps| :: steps[i].fault == NoFault
    modifies c
    ensures r == Dead <==> length == 0
  {
    hide Receive, Outcomes;
    if length == 0 {
      r, used := ZeroLengthRead(c, timeout, steps);
    } else {
      NoFalseEnd(c.pending, steps, if length == -1 then BUFF_SIZE else length);
      r, used := c.Read(length, timeout, steps);
    }
  }

  datatype Op = DoRead(length: int, timeout: real, steps: seq<Step>) | DoFlush(steps: seq<Step>, selects: seq<Select>)

  ghost predicate ErrorFree(op: Op) {
    (op.DoRead? ==> (op.length == -1 || op.length > 0) && (op.timeout == -1.0 || op.timeout >= 0.0))
    && (op.DoFlush? ==> |op.selects| == |op.steps| && forall i | 0 <= i < |op.steps| :: !op.selects[i].exceptional)
    && forall i | 0 <= i < |op.steps| :: op.steps[i].fault == NoFault
  }

  datatype OpResult = ReadGave(r: ReadResult) | Dropped(f: FlushResult, bytes: Bytes)

  /** A read returns some data within its size limit, times out or is still waiting: it never reports
      a dead connection or an error. */
  ghost predicate Fits(op: Op, result: OpResult) {
    match op
    case DoRead(length, timeout, _) =>
      && result.ReadGave?
      && match result.r {
           case Got(data) => 1 <= |data| <= if length == -1 then BUFF_SIZE else length
           case TimedOutRead => timeout >= 0.0
           case Waiting => true
           case _ => false
         }
    case DoFlush(_, _) => result.Dropped? && (result.f == Flushed || result.f == Running)
  }

  /** The bytes returned or flushed, in order. */
  function Delivered(results: seq<OpResult>): Bytes {
    if results == [] then []
    else Delivered(results[..|results| - 1]) + BytesOf(results[|results| - 1])
  }

  function BytesOf(result: OpResult): Bytes {
    match result
    case Dropped(_, bytes) => bytes
    case ReadGave(r) => if r.Got? then r.data else []
  }

  method RunOp(c: Connection, op: Op) returns (result: OpResult)
    requires c.Valid() && c.registered && ErrorFree(op)
    modifies c
    ensures c.Valid() && c.registered && c.state == old(c.state)
    ensures Fits(op, result) && c.consumed == old(c.consumed) + BytesOf(result)
  {
    match op {
      case DoRead(length, timeout, steps) =>
        NoFalseEnd(c.pending, steps, if length == -1 then BUFF_SIZE else length);
        var r, used := c.Read(length, timeout, steps);
        result := ReadGave(r);
      case DoFlush(steps, selects) =>
        var r, dropped := c.Flush(steps, selects);
        result := Dropped(r, dropped);
    }
  }

  /** Over any run of reads and flushes the peer's bytes are those returned or flushed, in order, and
      then the pending ones. */
  method RunOps(c: Connection, ops: seq<Op>) returns (results: seq<OpResult>)
    requires c.Valid() && c.registered && c.consumed == []
    requires forall i | 0 <= i < |ops| :: ErrorFree(ops[i])
    modifies c
    ensures c.Valid() && c.arrived == Delivered(results) + c.pending
    ensures |results| == |ops| && forall i | 0 <= i < |ops| :: Fits(ops[i], results[i])
    ensures c.state == old(c.state)
  {
    hide Fits, ErrorFree;
    results := [];
    for i := 0 to |ops|
      invariant c.Valid() && c.registered && c.state == old(c.state)
      invariant |results| == i && c.consumed == Delivered(results)
      invariant forall j | 0 <= j < i :: Fits(ops[j], results[j])
    {
      var result := RunOp(c, ops[i]);
      assert (results + [result])[..i] == results;
      results := results + [result];
    }
  }

  /** Without faults a receive of at least one byte never looks like an end of stream or an error. */
  lemma {:induction false} NoFalseEnd(pending: Bytes, steps: seq<Step>, n: nat)
    requires n > 0 && forall i | 0 <= i < |steps| :: steps[i].fault == NoFault
    ensures forall i | 0 <= i < |Outcomes(pending, steps, n)| ::
      var o := Outcomes(pending, steps, n)[i]; o == TimedOut || (o.Data? && o.bytes != [])
    decreases |steps|
  {
    if steps != [] { NoFalseEnd(pending + steps[0].arrive, steps[1..], n); }
  }

  /** The bytes that are there at receive `i` if none was taken before. */
  function Arrived(pending: Bytes, steps: seq<Step>, i: nat): Bytes
    requires i < |steps|
  {
    (if i == 0 then pending else Arrived(pending, steps, i - 1)) + steps[i].arrive
  }

  lemma {:induction false} ArrivedLater(pending: Bytes, steps: seq<Step>, i: nat)
    requires i + 1 < |steps|
    ensures Arrived(pending, steps, i + 1) == Arrived(pending + steps[0].arrive, steps[1..], i)
  {
    if i > 0 { ArrivedLater(pending, steps, i - 1); }
  }

  /** Without faults a receive of at least one byte times out exactly while nothing has arrived, and the
      first that does not takes a front part of what has. */
  lemma {:induction false} OutcomesFollowArrivals(pending: Bytes, steps: seq<Step>, n: nat, i: nat)
    requires n > 0 && forall j | 0 <= j < |steps| :: steps[j].fault == NoFault
    requires i < |Outcomes(pending, steps, n)|
    ensures var o := Outcomes(pending, steps, n)[i];
      && (o == TimedOut <==> Arrived(pending, steps, i) == [])
      && (o != TimedOut ==> o.Data? && 1 <= |o.bytes| <= n && o.bytes <= Arrived(pending, steps, i))
    decreases |steps|
  {
    FirstOutcome(pending, steps, n);
    if i > 0 {
      ArrivedLater(pending, steps, i - 1);
      OutcomesFollowArrivals(pending + steps[0].arrive, steps[1..], n, i - 1);
    }
  }

  /** The receives go on as long as nothing has arrived. */
  lemma {:induction false} OutcomesGoOn(pending: Bytes, steps: seq<Step>, n: nat, k: nat)
    requires n > 0 && (forall j | 0 <= j < |steps| :: steps[j].fault == NoFault) && k < |steps|
    requires forall i | 0 <= i < k :: Arrived(pending, steps, i) == []
    ensures |Outcomes(pending, steps, n)| > k
    decreases |steps|
  {
    FirstOutcome(pending, steps, n);
    if k > 0 {
      OutcomesFollowArrivals(pending, steps, n, 0);
      forall i | 0 <= i < k - 1 ensures Arrived(pending + steps[0].arrive, steps[1..], i) == [] {
        ArrivedLater(pending, steps, i);
      }
      OutcomesGoOn(pending + steps[0].arrive, steps[1..], n, k - 1);
    }
  }

  /** Bytes have arrived by receive `i`, which is within the time limit, and none before. */
  ghost predicate ArrivesAt(pending: Bytes, steps: seq<Step>, timeout: real, i: nat) {
    && i < |steps| && (timeout >= 0.0 ==> i < Limit(timeout)) && Arrived(pending, steps, i) != []
    && forall j | 0 <= j < i :: Arrived(pending, steps, j) == []
  }

  /** What a read on a connection without faults returns: data, a front part of what has arrived, at the
      first receive within the limit by which anything has, if there is one; otherwise it times out after
      exactly the limit, or is still waiting. */
  method ReadGetsDataExactlyWhen(c: Connection, length: int, timeout: real, steps: seq<Step>)
    returns (r: ReadResult, used: nat)
    requires c.Valid() && c.registered && (length == -1 || length > 0) && (timeout == -1.0 || timeout >= 0.0)
    requires forall i | 0 <= i < |steps| :: steps[i].fault == NoFault
    modifies c
    ensures c.Valid() && (r.Got? || r == TimedOutRead || r == Waiting)
    ensures r.Got? <==> exists i :: ArrivesAt(old(c.pending), steps, timeout, i)
    ensures r.Got? ==> 1 <= |r.data| <= (if length == -1 then 4096 else length)
    ensures r.Got? ==>
      && used > 0 && ArrivesAt(old(c.pending), steps, timeout, used - 1)
      && r.data <= Arrived(old(c.pending), steps, used - 1)
    ensures r == TimedOutRead ==> timeout >= 0.0 && used == Limit(timeout)
    ensures r == Waiting ==> used == |steps| && (timeout >= 0.0 ==> used < Limit(timeout))
  {
    hide Outcomes, Receive, Limit, Arrived;
    var n: nat := if length == -1 then BUFF_SIZE else length;
    ghost var before := c.pending;
    r, used := c.Read(length, timeout, steps);
    ghost var os := Outcomes(before, steps, n);
    forall i | 0 <= i < |os|
      ensures (os[i] == TimedOut <==> Arrived(before, steps, i) == [])
      ensures os[i] != TimedOut ==> os[i].Data? && 1 <= |os[i].bytes| <= n && os[i].bytes <= Arrived(before, steps, i)
    {
      OutcomesFollowArrivals(before, steps, n, i);
    }
    forall i: nat | ArrivesAt(before, steps, timeout, i) ensures i < |os| && os[i] != TimedOut {
      OutcomesGoOn(before, steps, n, i);
    }
    if r == Waiting && |os| < |steps| {
      OutcomesGoOn(before, steps, n, |os|);
    }
    if r.Got? { assert ArrivesAt(before, steps, timeout, used - 1); }
  }
}
