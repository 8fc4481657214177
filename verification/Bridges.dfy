/** The Gazebo and MuJoCo bridges: sort a JointState by joint number, derive the position command,
    and publish it when it changed. Positions and velocities are free of NaN. */
module Bridges {
  import opened JointNames
  import opened JointSort

  datatype Effort = NaN | Val(v: real)

  datatype JointState = JointState(
    name: seq<string>, position: seq<real>, velocity: seq<real>, effort: seq<Effort>)

  type Command = seq<real>

  /** Which regular expression reads the joint number: `(\d+)` or `joint_(\d+)`. */
  datatype Extractor = FirstNumber | NumberAfterJoint

  function KeyOf(ex: Extractor, name: string): Key {
    if ex.FirstNumber? then AnyNumber(name) else JointNumber(name)
  }

  function Keys(ex: Extractor, names: seq<string>): seq<Key> {
    seq(|names|, i requires 0 <= i < |names| => KeyOf(ex, names[i]))
  }

  /** Every name has a position, velocity and effort; otherwise the callback raises IndexError. */
  predicate Complete(msg: JointState) {
    |msg.position| >= |msg.name| && |msg.velocity| >= |msg.name| && |msg.effort| >= |msg.name|
  }

  function Order(ex: Extractor, msg: JointState): (order: seq<nat>)
    ensures |order| == |msg.name| && Indices(order, |msg.name|)
  {
    SortedIndices(Keys(ex, msg.name))
  }

  /** `[data[i] for i in order]`. */
  function Pick<T>(order: seq<nat>, data: seq<T>): (r: seq<T>)
    requires Indices(order, |data|)
    ensures |r| == |order| && forall k | 0 <= k < |order| :: r[k] == data[order[k]]
  {
    seq(|order|, k requires 0 <= k < |order| => data[order[k]])
  }

  function CleanEffort(e: Effort): Effort {
    if e.NaN? then Val(0.0) else e
  }

  function SortedState(ex: Extractor, msg: JointState): JointState
    requires Complete(msg)
  {
    var order := Order(ex, msg);
    var efforts := Pick(order, msg.effort);
    JointState(Pick(order, msg.name), Pick(order, msg.position), Pick(order, msg.velocity),
               seq(|efforts|, k requires 0 <= k < |efforts| => CleanEffort(efforts[k])))
  }

  predicate Contains(s: string, sub: string) {
    sub <= s || (s != "" && Contains(s[1..], sub))
  }

  /** `next((i for i in order if "joint_4" in name[i]), None)`, as a list of at most one index. */
  function JointFour(order: seq<nat>, names: seq<string>): seq<nat>
    requires Indices(order, |names|)
  {
    if order == [] then []
    else if Contains(names[order[0]], "joint_4") then [order[0]]
    else JointFour(order[1..], names)
  }

  /** `[i for i in order if i not in drop]`. */
  function Without(order: seq<nat>, drop: seq<nat>): (r: seq<nat>)
    ensures forall x | x in r :: x in order
  {
    if order == [] then []
    else (if order[0] in drop then [] else [order[0]]) + Without(order[1..], drop)
  }

  function CommandIndices(ex: Extractor, model: string, msg: JointState): (r: seq<nat>)
    ensures Indices(r, |msg.name|)
  {
    var order := Order(ex, msg);
    if model == "p3020" then
      var kept := Without(order, JointFour(order, msg.name));
      assert forall k | 0 <= k < |kept| :: kept[k] in kept;
      kept
    else order
  }

  function CommandOf(ex: Extractor, model: string, msg: JointState): Command
    requires Complete(msg)
  {
    Pick(CommandIndices(ex, model, msg), msg.position)
  }

  // ---------- what is published ----------

  /** A stream with consecutive repetitions removed. */
  function Dedup<T(==)>(stream: seq<T>): seq<T> {
    if stream == [] then []
    else
      var front, last := stream[..|stream| - 1], stream[|stream| - 1];
      if front != [] && front[|front| - 1] == last then Dedup(front) else Dedup(front) + [last]
  }

  lemma {:induction false} DedupAppends<T>(stream: seq<T>, last: T)
    ensures Dedup(stream + [last]) ==
      if stream != [] && stream[|stream| - 1] == last then Dedup(stream) else Dedup(stream) + [last]
  {
    assert (stream + [last])[..|stream|] == stream;
  }

  /** The last command, or the `[]` the bridge starts with. */
  function Latest(stream: seq<Command>): Command {
    if stream == [] then [] else stream[|stream| - 1]
  }

  /** What the Gazebo bridge publishes. `emptyTest`: whether an empty message buffer compares equal
      to `[]`, as a Python list does and an array buffer does not. */
  function GazeboPublishes(stream: seq<Command>, emptyTest: bool): seq<Command> {
    if stream == [] then []
    else
      var front, last := stream[..|stream| - 1], stream[|stream| - 1];
      if (emptyTest && Latest(front) == []) || Latest(front) != last
      then GazeboPublishes(front, emptyTest) + [last] else GazeboPublishes(front, emptyTest)
  }

  class GazeboConnection {
    const model: string
    const emptyTest: bool
    var currentPos: Command
    var commandData: Command
    var previousCommand: Command
    var jointStates: seq<JointState> // published on gz/joint_states
    var commands: seq<Command>       // published on the command topic
    ghost var stream: seq<Command>   // the commands derived so far

    ghost predicate Valid()
      reads this
    {
      previousCommand == Latest(stream) && commands == GazeboPublishes(stream, emptyTest)
    }

    constructor (model: string, emptyTest: bool)
      ensures Valid() && this.model == model && this.emptyTest == emptyTest
      ensures stream == [] && jointStates == [] && commands == []
    {
      this.model, this.emptyTest := model, emptyTest;
      currentPos, commandData, previousCommand := [], [], [];
      jointStates, commands, stream := [], [], [];
    }

    /** `sort_joint_states`; `ok` is false when it raises, before any attribute changes. */
    method SortJointStates(msg: JointState) returns (ok: bool, sorted: JointState)
      modifies this`currentPos, this`commandData
      ensures ok <==> Complete(msg)
      ensures ok ==> sorted == SortedState(FirstNumber, msg)
      ensures ok ==> commandData == currentPos == CommandOf(FirstNumber, model, msg)
      ensures !ok ==> unchanged(this)
    {
      sorted, ok := msg, Complete(msg);
      if ok {
        sorted := SortedState(FirstNumber, msg);
        var order := Order(FirstNumber, msg);
        var jointFour := JointFour(order, msg.name);
        if model == "p3020" {
          var kept := Without(order, jointFour);
          assert forall k | 0 <= k < |kept| :: kept[k] in kept;
          currentPos := Pick(kept, msg.position);
        } else {
          currentPos := Pick(order, msg.position);
        }
        commandData := currentPos;
      }
    }

    method ListenerCallback(msg: JointState) returns (ok: bool)
      requires Valid()
      modifies this
      ensures Valid() && (ok <==> Complete(msg))
      ensures !ok ==> unchanged(this)
      ensures ok ==> stream == old(stream) + [CommandOf(FirstNumber, model, msg)]
      ensures ok ==> jointStates == old(jointStates) + [SortedState(FirstNumber, msg)]
    {
      hide SortedState, CommandOf;
      var sorted;
      ok, sorted := SortJointStates(msg);
      if !ok { return; }
      jointStates := jointStates + [sorted];
      if (emptyTest && previousCommand == []) || previousCommand != commandData {
        commands := commands + [commandData];
        previousCommand := commandData;
      }
      stream := stream + [commandData];
      assert stream[..|stream| - 1] == old(stream);
    }
  }

  class MuJoCoBridge {
    const model: string
    var previousPositions: Command
    var firstCallback: bool
    var commands: seq<Command>
    ghost var stream: seq<Command>

    ghost predicate Valid()
      reads this
    {
      previousPositions == Latest(stream) && commands == Dedup(stream) && (firstCallback <==> stream == [])
    }

    constructor (model: string)
      ensures Valid() && this.model == model && stream == [] && commands == []
    {
      this.model, previousPositions, firstCallback, commands, stream := model, [], true, [], [];
    }

    method ListenerCallback(msg: JointState) returns (ok: bool)
      requires Valid()
      modifies this
      ensures Valid() && (ok <==> Complete(msg))
      ensures !ok ==> unchanged(this)
      ensures ok ==> stream == old(stream) + [CommandOf(NumberAfterJoint, model, msg)]
    {
      hide SortedState, CommandIndices, Pick, Dedup;
      ok := Complete(msg);
      if !ok { return; }
      var positions := Pick(CommandIndices(NumberAfterJoint, model, msg), msg.position);
      if firstCallback || positions != previousPositions {
        commands := commands + [positions];
        previousPositions := positions;
        firstCallback := false;
      }
      DedupAppends(stream, positions);
      stream := stream + [positions];
    }
  }

  // ---------- properties ----------

  /** Where the Gazebo cache departs from plain deduplication: with list buffers every repeated empty
      command is published again, with array buffers a leading empty one is not published. */
  ghost predicate Departs(stream: seq<Command>, emptyTest: bool) {
    if emptyTest then exists i | 0 < i < |stream| :: stream[i - 1] == stream[i] == []
    else stream != [] && stream[0] == []
  }

  lemma {:induction false} PublishedCounts(stream: seq<Command>, emptyTest: bool)
    ensures emptyTest ==> |GazeboPublishes(stream, true)| >= |Dedup(stream)|
    ensures !emptyTest ==> |GazeboPublishes(stream, false)| <= |Dedup(stream)|
    ensures Departs(stream, emptyTest) ==> |GazeboPublishes(stream, emptyTest)| != |Dedup(stream)|
    ensures !Departs(stream, emptyTest) ==> GazeboPublishes(stream, emptyTest) == Dedup(stream)
    decreases |stream|
  {
    if stream != [] {
      var front := stream[..|stream| - 1];
      PublishedCounts(front, emptyTest);
      if emptyTest && Departs(front, true) {
        var i :| 0 < i < |front| && front[i - 1] == front[i] == [];
        assert stream[i - 1] == stream[i] == [];
      }
    }
  }

  /** The Gazebo bridge publishes the deduplicated stream exactly when it does not depart from it;
      in particular whenever no command is empty, whatever the buffer type. */
  lemma GazeboDeduplicatesExactlyWhen(stream: seq<Command>, emptyTest: bool)
    ensures GazeboPublishes(stream, emptyTest) == Dedup(stream) <==> !Departs(stream, emptyTest)
    ensures (forall i | 0 <= i < |stream| :: stream[i] != []) ==> GazeboPublishes(stream, emptyTest) == Dedup(stream)
  {
    PublishedCounts(stream, emptyTest);
  }

  /** Deduplication loses nothing: the last published command is always the current one, and no
      command is published twice in a row. */
  lemma {:induction false} DedupKeepsCurrent(stream: seq<Command>)
    ensures Latest(Dedup(stream)) == Latest(stream) && (Dedup(stream) == [] <==> stream == [])
    ensures forall i | 0 < i < |Dedup(stream)| :: Dedup(stream)[i - 1] != Dedup(stream)[i]
    decreases |stream|
  {
    if stream != [] { DedupKeepsCurrent(stream[..|stream| - 1]); }
  }

  /** The order is the unique stable one by joint number, applied alike to all four arrays. */
  lemma OneStablePermutation(ex: Extractor, msg: JointState, k: nat)
    requires Complete(msg) && k < |msg.name|
    ensures IsStableOrder(Keys(ex, msg.name), Order(ex, msg))
    ensures var s, i := SortedState(ex, msg), Order(ex, msg)[k];
      && |s.name| == |s.position| == |s.velocity| == |s.effort| == |msg.name|
      && s.name[k] == msg.name[i] && s.position[k] == msg.position[i] && s.velocity[k] == msg.velocity[i]
      && s.effort[k] == (if msg.effort[i].NaN? then Val(0.0) else msg.effort[i])
  {
    SortsStably(Keys(ex, msg.name));
  }

  ghost predicate Distinct(order: seq<nat>) {
    forall a, b | 0 <= a < b < |order| :: order[a] != order[b]
  }

  lemma {:induction false} WithoutNothing(order: seq<nat>, drop: seq<nat>)
    requires forall k | 0 <= k < |order| :: order[k] !in drop
    ensures Without(order, drop) == order
  {
    if order != [] { WithoutNothing(order[1..], drop); }
  }

  lemma {:induction false} WithoutOne(order: seq<nat>, k: nat)
    requires k < |order| && Distinct(order)
    ensures Without(order, [order[k]]) == order[..k] + order[k + 1..]
  {
    if k == 0 {
      WithoutNothing(order[1..], [order[0]]);
    } else {
      WithoutOne(order[1..], k - 1);
      assert order[0] !in [order[k]];
      assert order[1..][..k - 1] == order[1..k] && order[1..][k..] == order[k + 1..];
      assert [order[0]] + order[1..k] == order[..k];
    }
  }

  lemma {:induction false} JointFourIsFirst(order: seq<nat>, names: seq<string>, k: nat)
    requires Indices(order, |names|) && k <= |order|
    requires forall j | 0 <= j < k :: !Contains(names[order[j]], "joint_4")
    requires k < |order| ==> Contains(names[order[k]], "joint_4")
    ensures JointFour(order, names) == if k < |order| then [order[k]] else []
  {
    hide Contains;
    if k > 0 { JointFourIsFirst(order[1..], names, k - 1); }
  }

  /** Dropping the first index whose name contains "joint_4" removes exactly that one entry. */
  lemma DropsJointFour(order: seq<nat>, names: seq<string>, k: nat)
    requires Indices(order, |names|) && Distinct(order) && k <= |order|
    requires forall j | 0 <= j < k :: !Contains(names[order[j]], "joint_4")
    requires k < |order| ==> Contains(names[order[k]], "joint_4")
    ensures Without(order, JointFour(order, names)) == if k < |order| then order[..k] + order[k + 1..] else order
  {
    hide Contains;
    JointFourIsFirst(order, names, k);
    if k < |order| { WithoutOne(order, k); } else { WithoutNothing(order, []); }
  }

  /** For model p3020 the command is the sorted positions without the first sorted entry whose name
      contains "joint_4", if there is one; for every other model it is the sorted positions. */
  lemma CommandForModel(ex: Extractor, model: string, msg: JointState, k: nat)
    requires Complete(msg) && k <= |msg.name|
    requires forall j | 0 <= j < k :: !Contains(SortedState(ex, msg).name[j], "joint_4")
    requires k < |msg.name| ==> Contains(SortedState(ex, msg).name[k], "joint_4")
    ensures var sorted := SortedState(ex, msg).position;
      CommandOf(ex, model, msg) ==
        if model == "p3020" && k < |sorted| then sorted[..k] + sorted[k + 1..] else sorted
  {
    hide Contains, SortedIndices, Without, JointFour, Distinct;
    var order := Order(ex, msg);
    OrderIsDistinct(ex, msg);
    SortedNames(ex, msg);
    DropsJointFour(order, msg.name, k);
    if model == "p3020" && k < |order| { PickSplits(order, msg.position, k); }
  }

  lemma SortedNames(ex: Extractor, msg: JointState)
    requires Complete(msg)
    ensures SortedState(ex, msg).position == Pick(Order(ex, msg), msg.position)
    ensures forall j | 0 <= j < |msg.name| :: SortedState(ex, msg).name[j] == msg.name[Order(ex, msg)[j]]
  {
  }

  lemma PickSplits(order: seq<nat>, data: seq<real>, k: nat)
    requires Indices(order, |data|) && k < |order|
    ensures Indices(order[..k] + order[k + 1..], |data|)
    ensures Pick(order[..k] + order[k + 1..], data) == Pick(order, data)[..k] + Pick(order, data)[k + 1..]
  {
  }

  lemma OrderIsDistinct(ex: Extractor, msg: JointState)
    ensures Distinct(Order(ex, msg))
  {
    var keys, order := Keys(ex, msg.name), Order(ex, msg);
    SortsStably(keys);
    forall a, b | 0 <= a < b < |order| ensures order[a] != order[b] {
      assert Before(keys, order[a], order[b]);
    }
  }

  /** The commands an extractor derives from a stream of messages; incomplete ones are skipped. */
  function Commands(ex: Extractor, model: string, msgs: seq<JointState>): seq<Command> {
    if msgs == [] then []
    else
      var front, last := Commands(ex, model, msgs[..|msgs| - 1]), msgs[|msgs| - 1];
      if Complete(last) then front + [CommandOf(ex, model, last)] else front
  }

  /** "joint_" and a decimal number, possibly behind a prefix without digits, is such a name. */
  lemma PlainJointsAgree(prefix: string, n: nat)
    requires NoDigits(prefix)
    ensures SameNumber(prefix + JOINT + Decimal(n))
  {
    ExtractorsReadBack(prefix, n);
    ExtractorsAgreeExactlyWhen(prefix + JOINT + Decimal(n));
  }

  lemma SameKeys(names: seq<string>)
    requires forall i | 0 <= i < |names| :: SameNumber(names[i])
    ensures Keys(FirstNumber, names) == Keys(NumberAfterJoint, names)
  {
    hide SameNumber, AnyNumber, JointNumber;
    forall i | 0 <= i < |names| ensures AnyNumber(names[i]) == JointNumber(names[i]) {
      ExtractorsAgreeExactlyWhen(names[i]);
    }
  }

  lemma {:induction false} SameCommands(model: string, msgs: seq<JointState>)
    requires forall m | 0 <= m < |msgs| :: forall i | 0 <= i < |msgs[m].name| :: SameNumber(msgs[m].name[i])
    ensures Commands(FirstNumber, model, msgs) == Commands(NumberAfterJoint, model, msgs)
    decreases |msgs|
  {
    hide SameNumber;
    if msgs != [] {
      SameCommands(model, msgs[..|msgs| - 1]);
      SameKeys(msgs[|msgs| - 1].name);
    }
  }

  /** Fed the same messages with names on which the extractors agree, the two bridges publish the same
      commands. */
  method BridgesAgree(model: string, emptyTest: bool, msgs: seq<JointState>)
    returns (gazebo: seq<Command>, mujoco: seq<Command>)
    requires forall m | 0 <= m < |msgs| :: forall i | 0 <= i < |msgs[m].name| :: SameNumber(msgs[m].name[i])
    ensures gazebo == GazeboPublishes(Commands(FirstNumber, model, msgs), emptyTest)
    ensures mujoco == Dedup(Commands(FirstNumber, model, msgs))
    ensures gazebo == mujoco <==> !Departs(Commands(FirstNumber, model, msgs), emptyTest)
  {
    hide GazeboPublishes, Dedup, CommandOf, SortedState, Departs, SameNumber;
    var g := new GazeboConnection(model, emptyTest);
    var m := new MuJoCoBridge(model);
    var i := 0;
    while i < |msgs|
      invariant i <= |msgs| && g.Valid() && m.Valid()
      invariant g.stream == Commands(FirstNumber, model, msgs[..i])
      invariant m.stream == Commands(NumberAfterJoint, model, msgs[..i])
    {
      assert msgs[..i + 1][..i] == msgs[..i];
      var ok := g.ListenerCallback(msgs[i]);
      ok := m.ListenerCallback(msgs[i]);
      i := i + 1;
    }
    assert msgs[..i] == msgs;
    SameCommands(model, msgs);
    GazeboDeduplicatesExactlyWhen(Commands(FirstNumber, model, msgs), emptyTest);
    return g.commands, m.commands;
  }

  /** `msg` names the joints joint_1 to joint_n, each once, in the arrangement `number`. */
  ghost predicate Arranges(msg: JointState, number: seq<nat>) {
    && Complete(msg) && |number| == |msg.name|
    && (forall i | 0 <= i < |number| :: 1 <= number[i] <= |number| && msg.name[i] == "joint_" + Decimal(number[i]))
    && (forall i, j | 0 <= i < j < |number| :: number[i] != number[j])
  }

  /** For the joints joint_1 to joint_n in any arrangement, either bridge's sorted state has joint_k in
      place k - 1, with its own position, velocity and effort. */
  lemma JointsComeInOrder(ex: Extractor, msg: JointState, number: seq<nat>, i: nat)
    requires Arranges(msg, number) && i < |number|
    ensures var s, k := SortedState(ex, msg), number[i];
      && |s.name| == |s.position| == |s.velocity| == |s.effort| == |number|
      && s.name[k - 1] == "joint_" + Decimal(k) && s.position[k - 1] == msg.position[i]
      && s.velocity[k - 1] == msg.velocity[i] && s.effort[k - 1] == CleanEffort(msg.effort[i])
  {
    var keys, order, k := Keys(ex, msg.name), Order(ex, msg), number[i];
    ArrangedKeys(ex, msg, number);
    OrderOfArrangement(keys, k - 1);
    assert order[k - 1] == i;
    OneStablePermutation(ex, msg, k - 1);
  }

  lemma ArrangedKeys(ex: Extractor, msg: JointState, number: seq<nat>)
    requires Arranges(msg, number)
    ensures forall i | 0 <= i < |number| :: Keys(ex, msg.name)[i] == Num(number[i])
  {
    hide AnyNumber, JointNumber, Decimal;
    forall i | 0 <= i < |number| ensures Keys(ex, msg.name)[i] == Num(number[i]) {
      ExtractorsReadBack("", number[i]);
      assert "" + JOINT + Decimal(number[i]) == msg.name[i];
    }
  }

  /** Which number each bridge goes by: Gazebo the first in the name, MuJoCo the one behind `joint_`. */
  lemma BridgesReadTheirNumber(m: nat, n: nat)
    ensures var name := Decimal(m) + "_joint_" + Decimal(n);
      KeyOf(FirstNumber, name) == Num(m) && (KeyOf(NumberAfterJoint, name) == Num(n))
  {
    hide AnyNumber, JointNumber, Decimal;
    PrefixWithNumberParts(m, n);
    assert Decimal(m) + "_" + JOINT + Decimal(n) == Decimal(m) + "_joint_" + Decimal(n);
  }

  ghost predicate IsPart(s: string, sub: string, i: nat) {
    i + |sub| <= |s| && s[i..i + |sub|] == sub
  }

  /** `sub in s`: some part of `s` is `sub`. */
  lemma {:induction false} ContainsExactlyWhen(s: string, sub: string)
    ensures Contains(s, sub) <==> exists i: nat :: IsPart(s, sub, i)
    decreases |s|
  {
    if sub <= s {
      assert IsPart(s, sub, 0);
    } else if s != "" {
      ContainsExactlyWhen(s[1..], sub);
      assert !IsPart(s, sub, 0);
      forall i: nat | i > 0 ensures IsPart(s, sub, i) <==> IsPart(s[1..], sub, i - 1) {
        if i + |sub| <= |s| { assert s[1..][i - 1..i - 1 + |sub|] == s[i..i + |sub|]; }
      }
      if Contains(s[1..], sub) {
        var i: nat :| IsPart(s[1..], sub, i);
        assert IsPart(s, sub, i + 1);
      }
    }
  }

  /** How many entries up to position `i` differ from the one before them, the first one included. */
  function ChangesUpTo<T(==)>(stream: seq<T>, i: nat): (n: nat)
    requires i < |stream|
    ensures 1 <= n <= i + 1
  {
    if i == 0 then 1 else ChangesUpTo(stream, i - 1) + if stream[i] != stream[i - 1] then 1 else 0
  }

  /** What deduplication keeps: exactly one entry for every change, in order. Entry `i` of the stream is
      the one that its changes so far count up to. */
  lemma {:induction false} DedupKeepsEveryChange<T>(stream: seq<T>, i: nat)
    requires i < |stream|
    ensures |Dedup(stream)| == ChangesUpTo(stream, |stream| - 1)
    ensures ChangesUpTo(stream, i) <= |Dedup(stream)| && Dedup(stream)[ChangesUpTo(stream, i) - 1] == stream[i]
    decreases |stream|
  {
    var last := |stream| - 1;
    var front := stream[..last];
    if last > 0 {
      DedupKeepsEveryChange(front, if i < last then i else last - 1);
      SameChanges(stream, last - 1);
      if i < last { SameChanges(stream, i); }
    }
  }

  lemma {:induction false} SameChanges<T>(stream: seq<T>, i: nat)
    requires i < |stream| - 1
    ensures ChangesUpTo(stream[..|stream| - 1], i) == ChangesUpTo(stream, i)
  {
    if i > 0 { SameChanges(stream, i - 1); }
  }
}
