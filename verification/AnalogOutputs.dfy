/** DSR_ROBOT2.py: analog output requests, guarded by the mode set last on the channel. */
module AnalogOutputs {
  import opened PyValues

  const CURRENT := 0
  const VOLTAGE := 1
  const UNSET := -1

  datatype Request = SetMode(ch: int, mode: int) | SetOutput(ch: int, value: real)

  /** 4..20 mA or 0..10 V; nothing is in range before a mode is set. */
  predicate InRange(mode: int, value: real) {
    if mode == CURRENT then 4.0 <= value <= 20.0
    else if mode == VOLTAGE then 0.0 <= value <= 10.0
    else false
  }

  /** The mode requested last on `ch`. */
  function LatestMode(log: seq<Request>, ch: int): int {
    if log == [] then UNSET
    else
      var last := log[|log| - 1];
      if last.SetMode? && last.ch == ch then last.mode else LatestMode(log[..|log| - 1], ch)
  }

  /** Every output request lies in the range of the latest mode requested before it on its channel. */
  ghost predicate Safe(log: seq<Request>) {
    forall i | 0 <= i < |log| && log[i].SetOutput? :: InRange(LatestMode(log[..i], log[i].ch), log[i].value)
  }

  /** `i` is the last request before `k` that sets the mode of `ch`. */
  ghost predicate IsLatestMode(log: seq<Request>, ch: int, i: int, k: int)
    requires k <= |log|
  {
    0 <= i < k && log[i].SetMode? && log[i].ch == ch &&
    forall j | i < j < k :: !(log[j].SetMode? && log[j].ch == ch)
  }

  /** A mode other than "unset" comes from the last mode request on the channel. */
  lemma {:induction false} LatestModeIsLast(log: seq<Request>, ch: int) returns (i: int)
    requires LatestMode(log, ch) != UNSET
    ensures IsLatestMode(log, ch, i, |log|) && log[i].mode == LatestMode(log, ch)
    decreases |log|
  {
    var last := |log| - 1;
    if log[last].SetMode? && log[last].ch == ch {
      i := last;
    } else {
      i := LatestModeIsLast(log[..last], ch);
    }
  }

  /** The arguments of an accepted mode request. */
  predicate IsMode(ch: Py, mod: Py) {
    ch.Int? && mod.Int? && 1 <= ch.i <= 2 && (mod.i == CURRENT || mod.i == VOLTAGE)
  }

  /** An accepted output request: in the range of the mode requested last on its channel. */
  predicate IsOutput(log: seq<Request>, ch: Py, val: Py) {
    ch.Int? && IntOrFloat(val) && 1 <= ch.i <= 2 && InRange(LatestMode(log, ch.i), Num(val))
  }

  class AnalogOutput {
    var modeCh1: int
    var modeCh2: int
    var log: seq<Request>

    ghost predicate Valid()
      reads this
    {
      modeCh1 == LatestMode(log, 1) && modeCh2 == LatestMode(log, 2) && Safe(log)
    }

    constructor ()
      ensures Valid() && log == []
    {
      modeCh1, modeCh2, log := UNSET, UNSET, [];
    }

    /** `set_mode_analog_output`. The mode is stored and requested even if the service call fails. */
    method SetModeAnalogOutput(ch: Py, mod: Py, reply: Reply) returns (r: Result<int>)
      requires Valid()
      modifies this
      ensures Valid()
      ensures IsMode(ch, mod) ==> log == old(log) + [SetMode(ch.i, mod.i)] && r == ReturnOf(reply)
      ensures !IsMode(ch, mod) ==> log == old(log) && r == Raise(if ch.Int? && mod.Int? then DrValue else DrType)
    {
      if !ch.Int? { return Raise(DrType); }
      if !mod.Int? { return Raise(DrType); }
      if ch.i < 1 || ch.i > 2 { return Raise(DrValue); }
      if mod.i != CURRENT && mod.i != VOLTAGE { return Raise(DrValue); }
      if ch.i == 1 { modeCh1 := mod.i; }
      if ch.i == 2 { modeCh2 := mod.i; }
      Append(SetMode(ch.i, mod.i));
      return ReturnOf(reply);
    }

    /** The range test for the mode of one channel. */
    method CheckValue(mode: int, value: real) returns (ok: bool)
      ensures ok <==> InRange(mode, value)
    {
      if mode == CURRENT {
        ok := !(value < 4.0 || value > 20.0);
      } else if mode == VOLTAGE {
        ok := !(value < 0.0 || value > 10.0);
      } else {
        ok := false;
      }
    }

    /** `set_analog_output`. */
    method SetAnalogOutput(ch: Py, val: Py, reply: Reply) returns (r: Result<int>)
      requires Valid()
      modifies this
      ensures Valid()
      ensures IsOutput(old(log), ch, val) ==> log == old(log) + [SetOutput(ch.i, Num(val))] && r == ReturnOf(reply)
      ensures !IsOutput(old(log), ch, val) ==>
        log == old(log) && r == Raise(if ch.Int? && IntOrFloat(val) then DrValue else DrType)
    {
      if !ch.Int? { return Raise(DrType); }
      if !IntOrFloat(val) { return Raise(DrType); }
      if ch.i < 1 || ch.i > 2 { return Raise(DrValue); }
      var ok := CheckValue(if ch.i == 1 then modeCh1 else modeCh2, Num(val));
      if !ok { return Raise(DrValue); }
      Append(SetOutput(ch.i, Num(val)));
      return ReturnOf(reply);
    }

    /** Issues a request. */
    method Append(request: Request)
      requires Safe(log) && (request.SetOutput? ==> InRange(LatestMode(log, request.ch), request.value))
      modifies this`log
      ensures log == old(log) + [request] && Safe(log)
      ensures forall ch ::
        LatestMode(log, ch) == (if request.SetMode? && request.ch == ch then request.mode else LatestMode(old(log), ch))
    {
      log := log + [request];
      assert log[..|log| - 1] == old(log);
      forall i | 0 <= i < |log| && log[i].SetOutput? ensures InRange(LatestMode(log[..i], log[i].ch), log[i].value) {
        if i < |old(log)| { assert log[..i] == old(log)[..i]; }
      }
    }
  }

  /** 4 to 20 milliamperes in current mode, 0 to 10 volts in voltage mode. */
  predicate Within(mode: int, value: real) {
    (mode == 0 && 4.0 <= value <= 20.0) || (mode == 1 && 0.0 <= value <= 10.0)
  }

  /** A mode that is set lets exactly the values in its range through on its channel, whatever was
      requested before; the other channel keeps its mode. */
  method ModeThenOutput(out: AnalogOutput, ch: int, mode: int, value: real, other: int, x: real)
    returns (r1: Result<int>, r2: Result<int>, r3: Result<int>)
    requires out.Valid() && ch in {1, 2} && mode in {0, 1} && other in {1, 2} && other != ch
    modifies out
    ensures out.Valid() && r1 == Ok(0)
    ensures r2 == Ok(0) <==> Within(mode, value)
    ensures r3 == Ok(0) <==> Within(LatestMode(old(out.log), other), x)
    ensures out.log == old(out.log) + [SetMode(ch, mode)] + (if r2 == Ok(0) then [SetOutput(ch, value)] else [])
                       + (if r3 == Ok(0) then [SetOutput(other, x)] else [])
  {
    hide LatestMode, Safe;
    r1 := out.SetModeAnalogOutput(Int(ch), Int(mode), Answered(true));
    ghost var after := out.log;
    LatestAfter(old(out.log), SetMode(ch, mode), ch);
    LatestAfter(old(out.log), SetMode(ch, mode), other);
    r2 := out.SetAnalogOutput(Int(ch), Float(value), Answered(true));
    LatestAfter(after, SetOutput(ch, value), other);
    r3 := out.SetAnalogOutput(Int(other), Float(x), Answered(true));
  }

  lemma LatestAfter(log: seq<Request>, request: Request, ch: int)
    ensures LatestMode(log + [request], ch)
         == if request.SetMode? && request.ch == ch then request.mode else LatestMode(log, ch)
  {
    assert (log + [request])[..|log|] == log;
  }

  datatype Call = Mode(ch: Py, mod: Py, reply: Reply) | Output(ch: Py, val: Py, reply: Reply)

  /** In every run of analog calls, accepted or raising, each output request follows a mode request on
      its channel and lies in the range of the last one. */
  method RunCalls(calls: seq<Call>) returns (log: seq<Request>)
    ensures forall k | 0 <= k < |log| && log[k].SetOutput? ::
      exists i :: IsLatestMode(log, log[k].ch, i, k) && Within(log[i].mode, log[k].value)
  {
    var out := new AnalogOutput();
    for c := 0 to |calls|
      invariant out.Valid()
    {
      var ignored: Result<int>;
      match calls[c] {
        case Mode(ch, mod, reply) => ignored := out.SetModeAnalogOutput(ch, mod, reply);
        case Output(ch, val, reply) => ignored := out.SetAnalogOutput(ch, val, reply);
      }
    }
    log := out.log;
    forall k | 0 <= k < |log| && log[k].SetOutput?
      ensures exists i :: IsLatestMode(log, log[k].ch, i, k) && Within(log[i].mode, log[k].value)
    {
      var i := LatestModeIsLast(log[..k], log[k].ch);
      assert IsLatestMode(log, log[k].ch, i, k);
    }
  }
}
