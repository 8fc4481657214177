/** DSR_ROBOT2.py: the module-level defaults, their setters, and the checks that guard `_movej`. */
module CommandLayer {
  import opened PyValues

  const COND_NONE: real := -10000.0
  const JOINTS: nat := 6

  const DR_BASE := 0
  const DR_TOOL := 1
  const DR_WORLD := 2
  const DR_TC_USER_MIN := 101
  const DR_TC_USER_MAX := 200

  datatype Motion = Motion(vel: real, acc: real, time: real)

  datatype MoveJoint = MoveJoint(
    pos: seq<real>, motion: Motion, mode: int, radius: real, blendType: int, syncType: int)

  predicate Positive(v: Py) { Numeric(v) && Num(v) > 0.0 }

  predicate NonNegative(v: Py) { Numeric(v) && Num(v) >= 0.0 }

  predicate AllPositive(s: seq<Py>) { forall k | 0 <= k < |s| :: Positive(s[k]) }

  predicate AllNonNegative(s: seq<Py>) { forall k | 0 <= k < |s| :: NonNegative(s[k]) }

  predicate SomeNonZero(s: seq<Py>)
    requires AllNonNegative(s)
  {
    exists k | 0 <= k < |s| :: Num(s[k]) != 0.0
  }

  /** Six zeros or six positives. */
  predicate JointDefault(s: seq<Py>) {
    |s| == JOINTS && (AllPositive(s) || s == Six(Float(0.0)))
  }

  /** Zero or positive, then the "not given" value or positive. */
  predicate TaskDefault(s: seq<Py>) {
    |s| == 2 && NonNegative(s[0]) && Numeric(s[1]) && (Num(s[1]) == COND_NONE || Num(s[1]) > 0.0)
  }

  predicate ValidCoord(c: int) {
    c == DR_BASE || c == DR_TOOL || c == DR_WORLD || DR_TC_USER_MIN <= c <= DR_TC_USER_MAX
  }

  /** What the joint setters accept: a positive int or float, or a list of six positive numbers. */
  predicate JointSpeed(v: Py) {
    (IntOrFloat(v) && Num(v) > 0.0) || (v.List? && |v.items| == JOINTS && AllPositive(v.items))
  }

  /** `[v] * 6`. */
  function Six(v: Py): seq<Py> {
    [v, v, v, v, v, v]
  }

  function Spread(v: Py): seq<Py> {
    if v.List? then v.items else Six(v)
  }

  /** The speeds a move uses: the argument, else its short name, else the default. */
  function Chosen(x: Py, y: Py, default: seq<Py>): seq<Py> {
    if GetParam(x, y) == None then default else Spread(GetParam(x, y))
  }

  /** What six items give: nothing but the head is tested for being a number, so what is wrong behind it
      shows when the items are compared with zero, the first offending one first. */
  function JointItems(items: seq<Py>): Result<seq<Py>>
    requires |items| == JOINTS
  {
    if Head(List(items)).Str? then Raise(DrType)
    else match FirstFault(items)
      case Raise(e) => Raise(e)
      case Ok(_) => Ok(items)
  }

  /** The exception of the first item that is not a positive number. */
  function FirstFault(items: seq<Py>): (r: Result<bool>)
    ensures r.Ok? <==> AllPositive(items)
  {
    if items == [] then Ok(true)
    else if !Numeric(items[0]) then Raise(NativeType)
    else if Num(items[0]) <= 0.0 then Raise(DrValue)
    else
      var r := FirstFault(items[1..]);
      assert r.Ok? ==> forall k | 0 < k < |items| :: items[k] == items[1..][k - 1];
      r
  }

  predicate SpeedShape(v: Py) {
    v == None || IntOrFloat(v) || (v.List? && |v.items| == JOINTS)
  }

  /** When the speeds given as `x` or `y` pass the checks of a move. */
  predicate SpeedPasses(x: Py, y: Py, default: seq<Py>) {
    SpeedShape(GetParam(x, y)) && AllNonNegative(Chosen(x, y, default))
  }

  /** A move without a duration, which must get its speed from elsewhere. */
  predicate ZeroTime(time: real) { time == 0.0 || time == COND_NONE }

  predicate TimeArg(v: Py) { v == None || (IntOrFloat(v) && (Num(v) >= 0.0 || Num(v) == COND_NONE)) }

  predicate RadiusArg(v: Py) { v == None || (IntOrFloat(v) && Num(v) >= 0.0) }

  function NumOr(v: Py, default: real): real {
    if IntOrFloat(v) then Num(v) else default
  }

  predicate IntIn01(v: Py) { v.Int? && (v.i == 0 || v.i == 1) }

  /** `for item in items: if item <= 0: raise`. */
  method CheckPositive(items: seq<Py>) returns (r: Result<bool>)
    ensures r == FirstFault(items)
  {
    for k := 0 to |items|
      invariant FirstFault(items) == FirstFault(items[k..])
    {
      assert items[k..][1..] == items[k + 1..];
      if !Numeric(items[k]) { return Raise(NativeType); }
      if Num(items[k]) <= 0.0 { return Raise(DrValue); }
    }
    return Ok(true);
  }

  /** The common part of `set_velj` and `set_accj`; they differ in the error of a scalar that is
      not positive. */
  method JointList(v: Py, scalarError: Exception) returns (r: Result<seq<Py>>)
    ensures r.Ok? <==> JointSpeed(v)
    ensures r.Ok? ==> r.value == Spread(v)
    ensures IntOrFloat(v) && Num(v) <= 0.0 ==> r == Raise(scalarError)
    ensures !IntOrFloat(v) && !(v.List? && |v.items| == JOINTS) ==> r == Raise(DrType)
    ensures v.List? && |v.items| == JOINTS ==> r == JointItems(v.items)
  {
    if IntOrFloat(v) {
      if Num(v) <= 0.0 { return Raise(scalarError); }
      return Ok(Six(v));
    } else if v.List? && |v.items| == JOINTS {
      IsNumberAcceptsExactly(v);
      assert Head(v) == Head(v.items[0]) && v == List(v.items);
      var number := IsNumber(v);
      if number.Raise? { return Raise(number.exn); }
      if !number.value { return Raise(DrType); }
      var checked := CheckPositive(v.items);
      if checked.Raise? { return Raise(checked.exn); }
      return Ok(v.items);
    }
    return Raise(DrType);
  }

  /** The common part of `set_velx` and `set_accx`. */
  method TaskPair(v1: Py, v2: Py) returns (r: Result<seq<Py>>)
    ensures r.Ok? <==> IntOrFloat(v1) && Num(v1) > 0.0 && IntOrFloat(v2) && (Num(v2) == COND_NONE || Num(v2) > 0.0)
    ensures r.Ok? ==> r.value == [v1, v2]
    ensures r.Raise? ==> r.exn == if IntOrFloat(v1) && (Num(v1) <= 0.0 || IntOrFloat(v2)) then DrValue else DrType
  {
    if !IntOrFloat(v1) { return Raise(DrType); }
    if Num(v1) <= 0.0 { return Raise(DrValue); }
    if !IntOrFloat(v2) { return Raise(DrType); }
    if Num(v2) != COND_NONE {
      if Num(v2) <= 0.0 { return Raise(DrValue); }
    }
    return Ok([v1, v2]);
  }

  /** The `_vel` and `_acc` parts of `_movej`. */
  method MoveSpeeds(x: Py, y: Py, default: seq<Py>) returns (r: Result<seq<Py>>)
    requires |default| == JOINTS && AllNonNegative(default)
    ensures r.Ok? <==> SpeedPasses(x, y, default)
    ensures r.Ok? ==> r.value == Chosen(x, y, default) && |r.value| == JOINTS && Numeric(r.value[0])
    ensures !SpeedShape(GetParam(x, y)) ==> r == Raise(DrType)
  {
    var temp := GetParam(x, y);
    var list := default;
    if temp != None {
      if IntOrFloat(temp) {
        list := Six(temp);
      } else if temp.List? && |temp.items| == JOINTS {
        list := temp.items;
      } else {
        return Raise(DrType);
      }
    }
    IsNumberAcceptsExactly(List(list));
    var number := IsNumber(List(list));
    if number.Raise? { return Raise(number.exn); }
    if !number.value { return Raise(DrValue); }
    for k := 0 to |list|
      invariant forall j | 0 <= j < k :: NonNegative(list[j])
    {
      if !Numeric(list[k]) { return Raise(NativeType); }
      if Num(list[k]) < 0.0 { return Raise(DrValue); }
    }
    return Ok(list);
  }

  /** `for item in items: if float(item) != 0.0: break` with its `else: raise`. */
  method CheckNotAllZero(items: seq<Py>) returns (ok: bool)
    requires AllNonNegative(items)
    ensures ok <==> SomeNonZero(items)
  {
    for k := 0 to |items|
      invariant forall j | 0 <= j < k :: Num(items[j]) == 0.0
    {
      if Num(items[k]) != 0.0 { return true; }
    }
    return false;
  }

  /** `_check_valid_vel_acc_joint`. */
  method CheckValidVelAccJoint(vel: seq<Py>, acc: seq<Py>, time: real) returns (ok: bool)
    requires AllNonNegative(vel) && AllNonNegative(acc)
    ensures ok <==> (ZeroTime(time) ==> SomeNonZero(vel) && SomeNonZero(acc))
  {
    ok := true;
    if ZeroTime(time) {
      ok := CheckNotAllZero(vel);
      if !ok { return; }
      ok := CheckNotAllZero(acc);
    }
  }

  /** The `_time` part. */
  method MoveTime(time: Py, t: Py) returns (r: Result<real>)
    ensures r.Ok? <==> TimeArg(GetParam(time, t))
    ensures r.Ok? ==> r.value == NumOr(GetParam(time, t), 0.0)
  {
    var theTime := GetParam(time, t);
    if theTime == None { theTime := Float(0.0); }
    if !IntOrFloat(theTime) { return Raise(DrType); }
    if Num(theTime) < 0.0 && Num(theTime) != COND_NONE { return Raise(DrValue); }
    return Ok(Num(theTime));
  }

  /** The `mod` and `ra` parts: an int that is 0 or 1. */
  method MoveFlag(x: Py) returns (r: Result<int>)
    ensures r.Ok? <==> IntIn01(x)
    ensures r.Ok? ==> r.value == x.i
    ensures r.Raise? ==> r.exn == if x.Int? then DrValue else DrType
  {
    if !x.Int? { return Raise(DrType); }
    if x.i != 0 && x.i != 1 { return Raise(DrValue); }
    return Ok(x.i);
  }

  /** The `_vel` and the `_acc` part, with the defaults `vels` and `accs`. */
  method BothSpeeds(vels: seq<Py>, accs: seq<Py>, vel: Py, v: Py, acc: Py, a: Py)
    returns (r: Result<(seq<Py>, seq<Py>)>)
    requires JointDefault(vels) && JointDefault(accs)
    ensures r.Ok? <==> SpeedPasses(vel, v, vels) && SpeedPasses(acc, a, accs)
    ensures r.Ok? ==> r.value == (Chosen(vel, v, vels), Chosen(acc, a, accs))
    ensures r.Ok? ==> |r.value.0| == |r.value.1| == JOINTS && AllNonNegative(r.value.0) && AllNonNegative(r.value.1)
    ensures r.Ok? ==> Numeric(r.value.0[0]) && Numeric(r.value.1[0])
  {
    DefaultsAreUsable(vels);
    DefaultsAreUsable(accs);
    var velList := MoveSpeeds(vel, v, vels);
    if velList.Raise? { return Raise(velList.exn); }
    var accList := MoveSpeeds(acc, a, accs);
    if accList.Raise? { return Raise(accList.exn); }
    return Ok((velList.value, accList.value));
  }

  /** When the speeds and the time of a move pass the checks. */
  predicate MayMoveAt(vels: seq<Py>, accs: seq<Py>, vel: Py, v: Py, acc: Py, a: Py, time: Py, t: Py) {
    && SpeedPasses(vel, v, vels) && SpeedPasses(acc, a, accs)
    && TimeArg(GetParam(time, t))
    && (ZeroTime(NumOr(GetParam(time, t), 0.0)) ==>
          SomeNonZero(Chosen(vel, v, vels)) && SomeNonZero(Chosen(acc, a, accs)))
  }

  /** What is sent: the first speed, the first acceleration and the time. */
  function MotionOf(vels: seq<Py>, accs: seq<Py>, vel: Py, v: Py, acc: Py, a: Py, time: Py, t: Py): Motion
    requires JointDefault(vels) && JointDefault(accs) && MayMoveAt(vels, accs, vel, v, acc, a, time, t)
  {
    Motion(Num(Chosen(vel, v, vels)[0]), Num(Chosen(acc, a, accs)[0]), NumOr(GetParam(time, t), 0.0))
  }

  /** `_movej` from the speeds to the check of speeds against time. */
  method MoveMotion(vels: seq<Py>, accs: seq<Py>, vel: Py, v: Py, acc: Py, a: Py, time: Py, t: Py)
    returns (r: Result<Motion>)
    requires JointDefault(vels) && JointDefault(accs)
    ensures r.Ok? <==> MayMoveAt(vels, accs, vel, v, acc, a, time, t)
    ensures r.Ok? ==> r.value == MotionOf(vels, accs, vel, v, acc, a, time, t)
  {
    hide MayMoveAt, MotionOf, SomeNonZero, AllNonNegative, Chosen, SpeedPasses, GetParam, NumOr, ZeroTime;
    hide TimeArg, JointDefault, Num, Numeric;
    MayMoveUnfolds(vels, accs, vel, v, acc, a, time, t);
    var speeds := BothSpeeds(vels, accs, vel, v, acc, a);
    if speeds.Raise? { return Raise(speeds.exn); }
    var theTime := MoveTime(time, t);
    if theTime.Raise? { return Raise(theTime.exn); }
    var (velList, accList) := speeds.value;
    var enough := CheckValidVelAccJoint(velList, accList, theTime.value);
    if !enough { return Raise(DrValue); }
    return Ok(Motion(Num(velList[0]), Num(accList[0]), theTime.value));
  }

  lemma MayMoveUnfolds(vels: seq<Py>, accs: seq<Py>, vel: Py, v: Py, acc: Py, a: Py, time: Py, t: Py)
    requires JointDefault(vels) && JointDefault(accs)
    ensures MayMoveAt(vels, accs, vel, v, acc, a, time, t) <==>
      SpeedPasses(vel, v, vels) && SpeedPasses(acc, a, accs) && TimeArg(GetParam(time, t)) &&
      (ZeroTime(NumOr(GetParam(time, t), 0.0)) ==>
         SomeNonZero(Chosen(vel, v, vels)) && SomeNonZero(Chosen(acc, a, accs)))
    ensures MayMoveAt(vels, accs, vel, v, acc, a, time, t) ==>
      MotionOf(vels, accs, vel, v, acc, a, time, t)
        == Motion(Num(Chosen(vel, v, vels)[0]), Num(Chosen(acc, a, accs)[0]), NumOr(GetParam(time, t), 0.0))
  {
  }

  /** `get_posj`: a posj as it is, or a list of six. */
  function GetPosj(pos: Py): (r: Result<seq<Py>>)
    ensures r.Ok? <==> (pos.Posj? || (pos.List? && |pos.items| == JOINTS)) && HeadPasses(pos)
    ensures r.Ok? ==> r.value == pos.items
  {
    if !(pos.Posj? || (pos.List? && |pos.items| == JOINTS)) then Raise(DrType)
    else
      IsNumberAcceptsExactly(pos);
      match IsNumber(pos)
      case Raise(e) => Raise(e)
      case Ok(number) => if number then Ok(pos.items) else Raise(DrValue)
  }

  /** `[float(x) for x in items]`. */
  function Floats(reader: FloatReader, items: seq<Py>): (r: Result<seq<real>>)
    ensures r.Ok? <==> forall k | 0 <= k < |items| :: FloatOf(reader, items[k]).Ok?
    ensures r.Ok? ==> |r.value| == |items| && forall k | 0 <= k < |items| :: Ok(r.value[k]) == FloatOf(reader, items[k])
  {
    if items == [] then Ok([])
    else
      var last := |items| - 1;
      match Floats(reader, items[..last])
      case Raise(e) => assert exists k | 0 <= k < last ::
        FloatOf(reader, items[..last][k]).Raise? && items[k] == items[..last][k]; Raise(e)
      case Ok(front) =>
        match FloatOf(reader, items[last])
        case Raise(e) => Raise(e)
        case Ok(x) => assert forall k | 0 <= k < last :: items[k] == items[..last][k]; Ok(front + [x])
  }

  lemma DefaultsAreUsable(s: seq<Py>)
    requires JointDefault(s)
    ensures |s| == JOINTS && AllNonNegative(s)
  {
  }

  /** The arguments of `movej` (async 0) and `amovej` (async 1). */
  datatype MoveArgs = MoveArgs(
    pos: Py, vel: Py, acc: Py, time: Py, radius: Py, mod: Py, ra: Py, v: Py, a: Py, t: Py, r: Py, async: int)

  class DsrRobot {
    var gVelj: seq<Py>
    var gAccj: seq<Py>
    var gVelx: seq<Py>
    var gAccx: seq<Py>
    var gCoord: int
    var gBlendState: bool // globals that nothing in the module sets again
    var gBlendRadius: real
    var moves: seq<MoveJoint> // requests issued to motion/move_joint

    ghost predicate Valid()
      reads this
    {
      && JointDefault(gVelj) && JointDefault(gAccj) && TaskDefault(gVelx) && TaskDefault(gAccx)
      && ValidCoord(gCoord)
    }

    constructor ()
      ensures Valid() && moves == [] && !gBlendState
    {
      gVelj, gAccj := Six(Float(0.0)), Six(Float(0.0));
      gVelx, gAccx := [Float(0.0), Float(COND_NONE)], [Float(0.0), Float(COND_NONE)];
      gCoord, gBlendState, gBlendRadius, moves := DR_BASE, false, 0.0, [];
    }

    method SetVelj(vel: Py) returns (r: Result<int>)
      requires Valid()
      modifies this`gVelj
      ensures Valid() && (r.Ok? <==> JointSpeed(vel))
      ensures gVelj == if r.Ok? then Spread(vel) else old(gVelj)
      ensures IntOrFloat(vel) && Num(vel) <= 0.0 ==> r == Raise(DrType)
    {
      var list := JointList(vel, DrType);
      if list.Raise? { return Raise(list.exn); }
      gVelj := list.value;
      return Ok(0);
    }

    method SetAccj(acc: Py) returns (r: Result<int>)
      requires Valid()
      modifies this`gAccj
      ensures Valid() && (r.Ok? <==> JointSpeed(acc))
      ensures gAccj == if r.Ok? then Spread(acc) else old(gAccj)
      ensures IntOrFloat(acc) && Num(acc) <= 0.0 ==> r == Raise(DrValue)
    {
      var list := JointList(acc, DrValue);
      if list.Raise? { return Raise(list.exn); }
      gAccj := list.value;
      return Ok(0);
    }

    method SetVelx(vel1: Py, vel2: Py) returns (r: Result<int>)
      requires Valid()
      modifies this`gVelx
      ensures Valid()
      ensures r.Ok? <==>
        IntOrFloat(vel1) && Num(vel1) > 0.0 && IntOrFloat(vel2) && (Num(vel2) == COND_NONE || Num(vel2) > 0.0)
      ensures gVelx == if r.Ok? then [vel1, vel2] else old(gVelx)
    {
      var pair := TaskPair(vel1, vel2);
      if pair.Raise? { return Raise(pair.exn); }
      gVelx := pair.value;
      return Ok(0);
    }

    method SetAccx(acc1: Py, acc2: Py) returns (r: Result<int>)
      requires Valid()
      modifies this`gAccx
      ensures Valid()
      ensures r.Ok? <==>
        IntOrFloat(acc1) && Num(acc1) > 0.0 && IntOrFloat(acc2) && (Num(acc2) == COND_NONE || Num(acc2) > 0.0)
      ensures gAccx == if r.Ok? then [acc1, acc2] else old(gAccx)
    {
      var pair := TaskPair(acc1, acc2);
      if pair.Raise? { return Raise(pair.exn); }
      gAccx := pair.value;
      return Ok(0);
    }

    /** `set_ref_coord`. The coordinate is stored even if its service call fails. */
    method SetRefCoord(coord: Py, reply: Reply) returns (r: Result<int>)
      requires Valid()
      modifies this`gCoord
      ensures Valid()
      ensures coord.Int? && (coord.i in {0, 1, 2} || 101 <= coord.i <= 200) ==>
        gCoord == coord.i && r == ReturnOf(reply)
      ensures !(coord.Int? && (coord.i in {0, 1, 2} || 101 <= coord.i <= 200)) ==>
        gCoord == old(gCoord) && r == Raise(if coord.Int? then DrValue else DrType)
    {
      if !coord.Int? { return Raise(DrType); }
      if coord.i != DR_BASE && coord.i != DR_TOOL && coord.i != DR_WORLD &&
         !(DR_TC_USER_MIN <= coord.i <= DR_TC_USER_MAX) {
        return Raise(DrValue);
      }
      gCoord := coord.i;
      return ReturnOf(reply);
    }

    /** The `_radius` part, with the blending default and the reset for asynchronous moves. */
    method MoveRadius(radius: Py, short: Py, async: int) returns (r: Result<real>)
      ensures r.Ok? <==> RadiusPasses(radius, short)
      ensures r.Ok? ==> r.value == if async == 1 then 0.0 else NumOr(GetParam(radius, short), BlendDefault())
    {
      var theRadius := GetParam(radius, short);
      if theRadius == None {
        if gBlendState { theRadius := Float(gBlendRadius); } else { theRadius := Float(0.0); }
      }
      if !IntOrFloat(theRadius) { return Raise(DrType); }
      if Num(theRadius) < 0.0 { return Raise(DrValue); }
      if async == 1 { theRadius := Float(0.0); }
      return Ok(Num(theRadius));
    }

    predicate RadiusPasses(radius: Py, short: Py)
      reads this`gBlendState, this`gBlendRadius
    {
      RadiusArg(GetParam(radius, short)) && (GetParam(radius, short) == None ==> BlendDefault() >= 0.0)
    }

    function BlendDefault(): real
      reads this`gBlendState, this`gBlendRadius
    {
      if gBlendState then gBlendRadius else 0.0
    }

    /** Every check of `_movej` passes. */
    predicate MayMoveJ(reader: FloatReader, m: MoveArgs)
      reads this`gVelj, this`gAccj, this`gBlendState, this`gBlendRadius
    {
      && GetPosj(m.pos).Ok? && JointDefault(gVelj) && JointDefault(gAccj)
      && MayMoveAt(gVelj, gAccj, m.vel, m.v, m.acc, m.a, m.time, m.t)
      && RadiusPasses(m.radius, m.r) && IntIn01(m.mod) && IntIn01(m.ra)
      && Floats(reader, m.pos.items).Ok? && |m.pos.items| == JOINTS
    }

    /** `_movej`. It issues one request with exactly these fields, or raises and issues none. */
    method MoveJ(reader: FloatReader, m: MoveArgs, reply: Reply) returns (result: Result<int>)
      requires Valid()
      modifies this`moves
      ensures Valid()
      ensures !old(MayMoveJ(reader, m)) ==> result.Raise? && moves == old(moves)
      ensures old(MayMoveJ(reader, m)) ==> result == ReturnOf(reply) && moves == old(moves) + [MoveJoint(
        Floats(reader, m.pos.items).value, MotionOf(gVelj, gAccj, m.vel, m.v, m.acc, m.a, m.time, m.t), m.mod.i,
        if m.async == 1 then 0.0 else NumOr(GetParam(m.radius, m.r), BlendDefault()), m.ra.i, m.async)]
    {
      hide MayMoveAt, MotionOf, RadiusPasses, NumOr, GetParam, JointDefault, TaskDefault, ValidCoord, FloatOf, IsNumber;
      var pos := GetPosj(m.pos);
      if pos.Raise? { return Raise(pos.exn); }
      var motion := MoveMotion(gVelj, gAccj, m.vel, m.v, m.acc, m.a, m.time, m.t);
      if motion.Raise? { return Raise(motion.exn); }
      var theRadius := MoveRadius(m.radius, m.r, m.async);
      if theRadius.Raise? { return Raise(theRadius.exn); }
      var mode := MoveFlag(m.mod);
      if mode.Raise? { return Raise(mode.exn); }
      var blend := MoveFlag(m.ra);
      if blend.Raise? { return Raise(blend.exn); }
      var floats := Floats(reader, pos.value);
      if floats.Raise? { return Raise(floats.exn); }
      if |floats.value| != JOINTS { return Raise(NativeAssert); }
      moves := moves + [MoveJoint(floats.value, motion.value, mode.value, theRadius.value, blend.value, m.async)];
      return ReturnOf(reply);
    }
  }

  /** When the speed that reaches the controller is positive, for a move without duration that passed
      the checks: exactly when it does not come from a list that starts with zero. The checks look for
      any non-zero entry, but only the first one is sent. */
  lemma SentSpeedIsPositiveExactlyWhen(x: Py, y: Py, default: seq<Py>)
    requires JointDefault(default) && SpeedShape(GetParam(x, y))
    requires AllNonNegative(Chosen(x, y, default)) && SomeNonZero(Chosen(x, y, default))
    ensures var arg := GetParam(x, y);
      Num(Chosen(x, y, default)[0]) > 0.0 <==> !(arg.List? && Num(arg.items[0]) == 0.0)
  {
    var s, arg := Chosen(x, y, default), GetParam(x, y);
    var k :| 0 <= k < |s| && Num(s[k]) != 0.0;
    if arg == None { assert AllPositive(default); }
  }

  /** A list with a single non-zero entry passes the checks and is sent as speed zero. */
  lemma ListSpeedCanBeSentAsZero()
    ensures var arg := List([Int(0), Int(5), Int(0), Int(0), Int(0), Int(0)]);
      && SpeedShape(arg) && AllNonNegative(Chosen(arg, None, Six(Float(0.0))))
      && SomeNonZero(Chosen(arg, None, Six(Float(0.0))))
      && Num(Chosen(arg, None, Six(Float(0.0)))[0]) == 0.0
  {
    var s := [Int(0), Int(5), Int(0), Int(0), Int(0), Int(0)];
    assert Num(s[1]) != 0.0;
  }

  datatype RobotCall =
    | Velj(v: Py) | Accj(v: Py) | Velx(v: Py, w: Py) | Accx(v: Py, w: Py) | RefCoord(v: Py, reply: Reply)
    | Move(args: MoveArgs, reply: Reply)

  /** The property every issued request has: for a move without duration, positive speeds unless a list
      argument starts with zero. */
  ghost predicate SafeMove(m: MoveJoint, velList: bool, accList: bool) {
    && |m.pos| == JOINTS && m.motion.vel >= 0.0 && m.motion.acc >= 0.0 && m.radius >= 0.0
    && m.mode in {0, 1} && m.blendType in {0, 1}
    && (m.syncType == 1 ==> m.radius == 0.0)
    && (ZeroTime(m.motion.time) && !velList ==> m.motion.vel > 0.0)
    && (ZeroTime(m.motion.time) && !accList ==> m.motion.acc > 0.0)
  }

  /** Request `m` is what call `c` may issue. */
  ghost predicate IssuedBy(m: MoveJoint, c: RobotCall) {
    && c.Move? && m.syncType == c.args.async
    && SafeMove(m, GetParam(c.args.vel, c.args.v).List?, GetParam(c.args.acc, c.args.a).List?)
  }

  /** A move raises or issues one safe request. */
  method SafeMoveJ(robot: DsrRobot, reader: FloatReader, args: MoveArgs, reply: Reply)
    requires robot.Valid()
    modifies robot`moves
    ensures robot.Valid()
    ensures robot.moves == old(robot.moves)
      || (|robot.moves| == |old(robot.moves)| + 1 && robot.moves[..|old(robot.moves)|] == old(robot.moves)
          && IssuedBy(robot.moves[|old(robot.moves)|], Move(args, reply)))
  {
    var result := robot.MoveJ(reader, args, reply);
    if robot.MayMoveJ(reader, args) && ZeroTime(NumOr(GetParam(args.time, args.t), 0.0)) {
      SentSpeedIsPositiveExactlyWhen(args.vel, args.v, robot.gVelj);
      SentSpeedIsPositiveExactlyWhen(args.acc, args.a, robot.gAccj);
    }
  }

  /** In any run of setters and moves, accepted or raising, the defaults stay in range and every request
      is a safe one issued by a move of its own (`origin[i]` is the call of request `i`). */
  method RunCalls(robot: DsrRobot, reader: FloatReader, calls: seq<RobotCall>) returns (origin: seq<nat>)
    requires robot.Valid() && robot.moves == []
    modifies robot
    ensures robot.Valid() && |origin| == |robot.moves|
    ensures forall i | 0 <= i < |origin| :: origin[i] < |calls| && IssuedBy(robot.moves[i], calls[origin[i]])
    ensures forall i, j | 0 <= i < j < |origin| :: origin[i] < origin[j]
  {
    hide IssuedBy, JointDefault, TaskDefault, ValidCoord, JointSpeed, Spread;
    var k, ignored := 0, Ok(0);
    origin := [];
    while k < |calls|
      invariant k <= |calls| && robot.Valid() && |origin| == |robot.moves|
      invariant forall i | 0 <= i < |origin| :: origin[i] < k && IssuedBy(robot.moves[i], calls[origin[i]])
      invariant forall i, j | 0 <= i < j < |origin| :: origin[i] < origin[j]
    {
      ghost var before := robot.moves;
      match calls[k] {
        case Velj(x) => ignored := robot.SetVelj(x);
        case Accj(x) => ignored := robot.SetAccj(x);
        case Velx(x, y) => ignored := robot.SetVelx(x, y);
        case Accx(x, y) => ignored := robot.SetAccx(x, y);
        case RefCoord(x, reply) => ignored := robot.SetRefCoord(x, reply);
        case Move(args, reply) =>
          var count := |robot.moves|;
          SafeMoveJ(robot, reader, args, reply);
          if |robot.moves| > count { origin := origin + [k]; }
      }
      k := k + 1;
    }
  }

  // ---------- what reaches the controller, told by the arguments alone ----------

  /** The number that a scalar argument is. */
  function Scalar(v: Py): real {
    match v
    case Int(i) => i as real
    case Float(x) => x
    case _ => 0.0
  }

  predicate IsScalar(v: Py) {
    v.Int? || v.Float?
  }

  /** A speed argument that is accepted: a scalar that is not negative, or six such numbers. */
  predicate GoodSpeed(v: Py) {
    || (IsScalar(v) && Scalar(v) >= 0.0)
    || (v.List? && |v.items| == 6 && forall k | 0 <= k < 6 :: NonNegative(v.items[k]))
  }

  /** A speed argument that moves the robot: a scalar that is not zero, or a list with such an entry. */
  predicate MovingSpeed(v: Py)
    requires GoodSpeed(v)
  {
    if v.List? then exists k | 0 <= k < 6 :: Num(v.items[k]) != 0.0 else Scalar(v) != 0.0
  }

  /** `longer` is the argument under its long name, `short` under its short one, and `default` is used if
      neither is given. */
  predicate SpeedAccepted(longer: Py, short: Py, default: seq<Py>, untimed: bool)
    requires JointDefault(default)
  {
    && (longer != None ==> GoodSpeed(longer) && (untimed ==> MovingSpeed(longer)))
    && (longer == None && short != None ==> GoodSpeed(short) && (untimed ==> MovingSpeed(short)))
    && (longer == None && short == None && untimed ==> default[0] != Float(0.0))
  }

  /** `sent` is the scalar given under the long name or, if that is not given, under the short one; or the
      first entry of the list given so; or the first default if neither is given. */
  predicate SentFrom(sent: real, longer: Py, short: Py, default: seq<Py>)
    requires JointDefault(default)
  {
    && (IsScalar(longer) ==> sent == Scalar(longer))
    && (longer == None && IsScalar(short) ==> sent == Scalar(short))
    && (longer.List? && GoodSpeed(longer) ==> sent == Num(longer.items[0]))
    && (longer == None && short.List? && GoodSpeed(short) ==> sent == Num(short.items[0]))
    && (longer == None && short == None ==> sent == Num(default[0]))
  }

  /** A time or radius argument that is accepted, and what is sent of it: 0 if neither name is given. */
  predicate TimeAccepted(longer: Py, short: Py) {
    && (longer != None ==> IsScalar(longer) && (Scalar(longer) >= 0.0 || Scalar(longer) == -10000.0))
    && (longer == None && short != None ==> IsScalar(short) && (Scalar(short) >= 0.0 || Scalar(short) == -10000.0))
  }

  predicate RadiusAccepted(longer: Py, short: Py, default: real) {
    && (longer != None ==> IsScalar(longer) && Scalar(longer) >= 0.0)
    && (longer == None && short != None ==> IsScalar(short) && Scalar(short) >= 0.0)
    && (longer == None && short == None ==> default >= 0.0)
  }

  function GivenOr(longer: Py, short: Py, default: real): real {
    if longer != None then Scalar(longer) else if short != None then Scalar(short) else default
  }

  predicate Untimed(time: real) {
    time == 0.0 || time == -10000.0
  }

  lemma SpeedsPlainly(longer: Py, short: Py, default: seq<Py>)
    requires JointDefault(default)
    ensures SpeedAccepted(longer, short, default, false) <==> SpeedPasses(longer, short, default)
    ensures SpeedPasses(longer, short, default) ==>
      && (SpeedAccepted(longer, short, default, true) <==> SomeNonZero(Chosen(longer, short, default)))
      && SentFrom(Num(Chosen(longer, short, default)[0]), longer, short, default)
  {
    if SpeedPasses(longer, short, default) {
      var c := Chosen(longer, short, default);
      var given := if longer != None then longer else short;
      if given.List? {
        assert c == given.items;
        assert SomeNonZero(c) <==> MovingSpeed(given);
      } else if given == None {
        assert c == default;
        assert SomeNonZero(c) <==> Num(c[0]) != 0.0;
      } else {
        assert c[0] == given && c == Six(given);
        assert SomeNonZero(c) <==> Num(c[0]) != 0.0;
      }
    }
  }

  lemma TimesPlainly(longer: Py, short: Py)
    ensures TimeAccepted(longer, short) <==> TimeArg(GetParam(longer, short))
    ensures TimeAccepted(longer, short) ==> NumOr(GetParam(longer, short), 0.0) == GivenOr(longer, short, 0.0)
  {
  }

  /** A number, a bool or a text that reads as a number. */
  predicate CanBeFloat(reader: FloatReader, v: Py) {
    v.Bool? || v.Int? || v.Float? || (v.Str? && reader.read(v.s).Ok?)
  }

  predicate ReadsTo(reader: FloatReader, v: Py, x: real) {
    match v
    case Bool(b) => x == if b then 1.0 else 0.0
    case Int(i) => x == i as real
    case Float(y) => x == y
    case Str(text) => reader.read(text) == Ok(x)
    case _ => false
  }

  /** The arguments with which a move is issued: a target of six values with floats, speeds that are
      accepted and, without a duration, move the robot, a time and a radius that are not negative, and
      flags that are 0 or 1. */
  ghost predicate Issues(robot: DsrRobot, reader: FloatReader, m: MoveArgs)
    reads robot`gVelj, robot`gAccj, robot`gBlendState, robot`gBlendRadius
    requires JointDefault(robot.gVelj) && JointDefault(robot.gAccj)
  {
    var untimed := Untimed(GivenOr(m.time, m.t, 0.0));
    && OtherwiseFine(robot, reader, m)
    && SpeedAccepted(m.vel, m.v, robot.gVelj, untimed) && SpeedAccepted(m.acc, m.a, robot.gAccj, untimed)
  }

  /** All arguments but the speeds pass. */
  ghost predicate OtherwiseFine(robot: DsrRobot, reader: FloatReader, m: MoveArgs)
    reads robot`gBlendState, robot`gBlendRadius
  {
    && (m.pos.Posj? || m.pos.List?) && |m.pos.items| == 6 && HeadPasses(m.pos)
    && (forall k | 0 <= k < 6 :: CanBeFloat(reader, m.pos.items[k]))
    && TimeAccepted(m.time, m.t)
    && RadiusAccepted(m.radius, m.r, if robot.gBlendState then robot.gBlendRadius else 0.0)
    && (m.mod == Int(0) || m.mod == Int(1)) && (m.ra == Int(0) || m.ra == Int(1))
  }

  /** What the request then holds. */
  ghost predicate RequestFor(q: MoveJoint, robot: DsrRobot, reader: FloatReader, m: MoveArgs)
    reads robot`gVelj, robot`gAccj, robot`gBlendState, robot`gBlendRadius
    requires JointDefault(robot.gVelj) && JointDefault(robot.gAccj)
  {
    && (m.pos.List? || m.pos.Posj?) && |q.pos| == |m.pos.items|
    && (forall k | 0 <= k < |q.pos| :: ReadsTo(reader, m.pos.items[k], q.pos[k]))
    && SentFrom(q.motion.vel, m.vel, m.v, robot.gVelj) && SentFrom(q.motion.acc, m.acc, m.a, robot.gAccj)
    && q.motion.time == GivenOr(m.time, m.t, 0.0)
    && (m.async == 1 ==> q.radius == 0.0)
    && (m.async != 1 ==> q.radius == GivenOr(m.radius, m.r, if robot.gBlendState then robot.gBlendRadius else 0.0))
    && Int(q.mode) == m.mod && Int(q.blendType) == m.ra && q.syncType == m.async
  }

  lemma IssuesPlainly(robot: DsrRobot, reader: FloatReader, m: MoveArgs)
    requires robot.Valid()
    ensures robot.MayMoveJ(reader, m) <==> Issues(robot, reader, m)
  {
    SpeedsPlainly(m.vel, m.v, robot.gVelj);
    SpeedsPlainly(m.acc, m.a, robot.gAccj);
    TimesPlainly(m.time, m.t);
    MayMoveUnfolds(robot.gVelj, robot.gAccj, m.vel, m.v, m.acc, m.a, m.time, m.t);
    hide SpeedPasses, Chosen, SomeNonZero, MayMoveAt, TimeArg, HeadPasses, JointDefault;
  }

  lemma RequestPlainly(robot: DsrRobot, reader: FloatReader, m: MoveArgs)
    requires robot.Valid() && robot.MayMoveJ(reader, m)
    ensures RequestFor(MoveJoint(
      Floats(reader, m.pos.items).value,
      MotionOf(robot.gVelj, robot.gAccj, m.vel, m.v, m.acc, m.a, m.time, m.t), m.mod.i,
      if m.async == 1 then 0.0 else NumOr(GetParam(m.radius, m.r), robot.BlendDefault()), m.ra.i, m.async),
      robot, reader, m)
  {
    SpeedsPlainly(m.vel, m.v, robot.gVelj);
    SpeedsPlainly(m.acc, m.a, robot.gAccj);
    TimesPlainly(m.time, m.t);
    MayMoveUnfolds(robot.gVelj, robot.gAccj, m.vel, m.v, m.acc, m.a, m.time, m.t);
    hide SpeedPasses, Chosen, SomeNonZero, MayMoveAt, TimeArg, HeadPasses, JointDefault, SentFrom, SpeedAccepted;
  }

  /** `_movej`, told by its arguments: a request is issued if and only if they pass, with the values given
      under the long names or else under the short ones or else the defaults; and what is returned says
      what the service answered. */
  method MoveJPlainly(robot: DsrRobot, reader: FloatReader, m: MoveArgs, reply: Reply) returns (result: Result<int>)
    requires robot.Valid()
    modifies robot`moves
    ensures robot.Valid()
    ensures old(Issues(robot, reader, m)) ==>
      && |robot.moves| == |old(robot.moves)| + 1 && robot.moves[..|old(robot.moves)|] == old(robot.moves)
      && RequestFor(robot.moves[|old(robot.moves)|], robot, reader, m)
      && (reply == Answered(true) ==> result == Ok(0))
      && (reply == Answered(false) || reply == NoResponse ==> result == Ok(-1))
      && (reply == Throws ==> result == Raise(UnboundLocal))
    ensures !old(Issues(robot, reader, m)) ==> robot.moves == old(robot.moves) && result.Raise?
  {
    hide RequestFor, Issues, Floats, MotionOf, NumOr;
    IssuesPlainly(robot, reader, m);
    if robot.MayMoveJ(reader, m) { RequestPlainly(robot, reader, m); }
    result := robot.MoveJ(reader, m, reply);
  }

  /** Setters and moves together: after `set_velj` and `set_accj` with positive scalars a move that names no
      speeds is issued whenever its other arguments pass, with these two as its speed and acceleration. */
  method DefaultsReachTheRobot(robot: DsrRobot, reader: FloatReader, m: MoveArgs, vel: Py, acc: Py, reply: Reply)
    returns (result: Result<int>)
    requires robot.Valid() && IsScalar(vel) && Scalar(vel) > 0.0 && IsScalar(acc) && Scalar(acc) > 0.0
    requires m.vel == m.v == m.acc == m.a == None
    modifies robot`gVelj, robot`gAccj, robot`moves
    ensures robot.Valid()
    ensures |robot.moves| > |old(robot.moves)| ==>
      var q := robot.moves[|old(robot.moves)|];
      q.motion.vel == Scalar(vel) && q.motion.acc == Scalar(acc)
    ensures |robot.moves| > |old(robot.moves)| <==> old(OtherwiseFine(robot, reader, m))
  {
    result := robot.SetVelj(vel);
    result := robot.SetAccj(acc);
    result := MoveJPlainly(robot, reader, m, reply);
  }
}
