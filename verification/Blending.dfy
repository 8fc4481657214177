/** Blended moves: `posb` segments, their flattening to 14-number rows in `_moveb`, and the rows that
    the C++ client builds. */
module Blending {
  import opened PyValues

  const POINT_COUNT: nat := 6
  const DR_LINE := 0
  const DR_CIRCLE := 1

  /** The second pose of a segment, which a line does not have. */
  datatype SecondPose = Absent | Given(pose: seq<Py>)

  /** A segment as a value. */
  datatype Segment = Segment(kind: int, pose1: seq<Py>, pose2: SecondPose, radius: Py)

  predicate IsPose(p: seq<Py>) {
    |p| == POINT_COUNT && IsNumber(List(p)) == Ok(true)
  }

  predicate ValidSegment(s: Segment) {
    && IsPose(s.pose1)
    && (s.kind == DR_LINE || s.kind == DR_CIRCLE)
    && (s.kind == DR_LINE <==> s.pose2.Absent?)
    && (s.pose2.Given? ==> IsPose(s.pose2.pose))
    && IntOrFloat(s.radius) && Num(s.radius) >= 0.0
  }

  /** An entry of the list that `to_list` builds. */
  datatype Entry = Kind(k: int) | Pose(p: seq<Py>) | NoPose | Radius(r: Py)

  const NO_POSE: seq<Py> := [Float(0.0), Float(0.0), Float(0.0), Float(0.0), Float(0.0), Float(0.0)]

  /** `get_posx` of a list (or posx) argument. */
  function GetPosx(pos: Py): (r: Result<seq<Py>>)
    ensures r.Ok? <==> pos.List? && |pos.items| == 6 && HeadPasses(pos)
    ensures r.Ok? ==> r.value == pos.items
  {
    if !(pos.List? && |pos.items| == POINT_COUNT) then Raise(DrType)
    else
      IsNumberAcceptsExactly(pos);
      match IsNumber(pos)
      case Raise(e) => Raise(e)
      case Ok(number) => if number then Ok(pos.items) else Raise(DrValue)
  }

  class Posb {
    var segType: int
    var posx1: seq<Py>
    var posx2: SecondPose
    var radius: Py

    ghost function View(): Segment
      reads this
    {
      Segment(segType, posx1, posx2, radius)
    }

    constructor (segType: int, posx1: seq<Py>, posx2: SecondPose, radius: Py)
      ensures View() == Segment(segType, posx1, posx2, radius)
    {
      this.segType, this.posx1, this.posx2, this.radius := segType, posx1, posx2, radius;
    }

    /** `posb(seg_type, posx1, posx2, radius)`. */
    static method Create(segType: Py, posx1: Py, posx2: Py, radius: Py) returns (r: Result<Posb>)
      ensures r.Ok? <==>
        && segType.Int? && (segType.i == DR_LINE || segType.i == DR_CIRCLE)
        && GetPosx(posx1).Ok? && (segType.i == DR_LINE <==> posx2 == None)
        && (posx2 != None ==> GetPosx(posx2).Ok?)
        && IntOrFloat(radius) && Num(radius) >= 0.0
      ensures r.Ok? ==> fresh(r.value) && ValidSegment(r.value.View())
      ensures r.Ok? ==>
        r.value.View() == Segment(segType.i, posx1.items, if posx2 == None then Absent else Given(posx2.items), radius)
    {
      if !segType.Int? { return Raise(DrType); }
      if segType.i != DR_LINE && segType.i != DR_CIRCLE { return Raise(DrValue); }
      var pose1 := GetPosx(posx1);
      if pose1.Raise? { return Raise(pose1.exn); }
      var pose2 := Absent;
      if segType.i == DR_LINE {
        if posx2 != None { return Raise(DrValue); }
      } else {
        if posx2 == None { return Raise(DrValue); }
        var second := GetPosx(posx2);
        if second.Raise? { return Raise(second.exn); }
        pose2 := Given(second.value);
      }
      if !IntOrFloat(radius) { return Raise(DrType); }
      if Num(radius) < 0.0 { return Raise(DrValue); }
      var made := new Posb(segType.i, pose1.value, pose2, radius);
      return Ok(made);
    }

    /** `to_list`: a new list each time. */
    method ToList() returns (list: array<Entry>)
      ensures fresh(list) && list[..] == Entries(View())
    {
      list := new Entry[4](_ => NoPose);
      list[0] := Kind(segType);
      list[1] := Pose(posx1);
      if posx2.Given? { list[2] := Pose(posx2.pose); }
      list[3] := Radius(radius);
    }
  }

  function Entries(s: Segment): seq<Entry> {
    [Kind(s.kind), Pose(s.pose1), if s.pose2.Given? then Pose(s.pose2.pose) else NoPose, Radius(s.radius)]
  }

  /** The row of a segment: both poses, the type and the radius; a missing pose is six zeros. */
  function Row(s: Segment): seq<Py> {
    s.pose1 + (if s.pose2.Given? then s.pose2.pose else NO_POSE) + [Int(s.kind)] + [s.radius]
  }

  function Rows(segs: seq<Segment>): (rows: seq<seq<Py>>)
    ensures |rows| == |segs| && forall i | 0 <= i < |segs| :: rows[i] == Row(segs[i])
  {
    seq(|segs|, i requires 0 <= i < |segs| => Row(segs[i]))
  }

  ghost function Views(segs: seq<Posb>): (vs: seq<Segment>)
    reads segs
    ensures |vs| == |segs| && forall i | 0 <= i < |segs| :: vs[i] == segs[i].View()
  {
    seq(|segs|, i requires 0 <= i < |segs| reads segs => segs[i].View())
  }

  /** `_seg_list`: one new list per segment. */
  method SegLists(segs: seq<Posb>) returns (lists: seq<array<Entry>>)
    ensures |lists| == |segs|
    ensures forall k | 0 <= k < |lists| :: fresh(lists[k]) && lists[k][..] == Entries(segs[k].View())
    ensures forall j, k | 0 <= j < k < |lists| :: lists[j] != lists[k]
  {
    lists := [];
    for s := 0 to |segs|
      invariant |lists| == s
      invariant forall k | 0 <= k < s :: fresh(lists[k]) && lists[k][..] == Entries(segs[k].View())
      invariant forall j, k | 0 <= j < k < s :: lists[j] != lists[k]
    {
      var list := segs[s].ToList();
      lists := lists + [list];
    }
  }

  function Filled(e: Entry): Entry {
    if e == NoPose then Pose(NO_POSE) else e
  }

  /** The inner loop of `_moveb`: missing entries become six zeros, in place. */
  method FillMissing(list: array<Entry>)
    modifies list
    ensures forall e | 0 <= e < list.Length :: list[e] == Filled(old(list[e]))
  {
    for e := 0 to list.Length
      invariant forall k | 0 <= k < e :: list[k] == Filled(old(list[k]))
      invariant forall k | e <= k < list.Length :: list[k] == old(list[k])
    {
      if list[e] == NoPose { list[e] := Pose(NO_POSE); }
    }
  }

  /** The segment part of `_moveb`: lists are taken from the segments, missing poses are filled in
      place in those lists, and each list becomes one row. The segments themselves are not touched:
      nothing that existed before is modified. */
  method MovebRows(segs: seq<Posb>) returns (r: Result<seq<seq<Py>>>)
    requires forall i | 0 <= i < |segs| :: ValidSegment(segs[i].View())
    ensures segs == [] ==> r == Raise(DrValue)
    ensures segs != [] ==> r == Ok(Rows(Views(segs)))
  {
    if |segs| == 0 { return Raise(DrValue); }
    var lists := SegLists(segs);
    var rows: seq<seq<Py>> := [];
    for s := 0 to |segs|
      invariant forall k | s <= k < |segs| :: fresh(lists[k]) && lists[k][..] == Entries(segs[k].View())
      invariant |rows| == s && forall k | 0 <= k < s :: rows[k] == Row(segs[k].View())
    {
      var list := lists[s];
      assert list[..] == Entries(segs[s].View());
      assert list[0] == list[..][0] && list[1] == list[..][1] && list[2] == list[..][2] && list[3] == list[..][3];
      FillMissing(list);
      rows := rows + [list[1].p + list[2].p + [Int(list[0].k)] + [list[3].r]];
    }
    assert rows == Rows(Views(segs));
    return Ok(rows);
  }

  // ---------- reading rows back ----------

  function SegmentOf(row: seq<Py>): Segment
    requires |row| == 14 && row[12].Int?
  {
    Segment(row[12].i, row[..6], if row[12].i == DR_LINE then Absent else Given(row[6..12]), row[13])
  }

  /** Every row has 14 entries, shows its parts at fixed places, and decodes to its segment. */
  lemma RowDecodes(s: Segment)
    requires ValidSegment(s)
    ensures |Row(s)| == 14 && Row(s)[12].Int? && SegmentOf(Row(s)) == s
    ensures s.kind == DR_LINE ==> forall k | 6 <= k < 12 :: Row(s)[k] == Float(0.0)
    ensures s.kind == DR_CIRCLE ==> Row(s)[6..12] == s.pose2.pose
    ensures Row(s)[..6] == s.pose1 && Row(s)[12] == Int(s.kind) && Row(s)[13] == s.radius
  {
    var row := Row(s);
    assert row[..6] == s.pose1;
    assert row[6..12] == if s.pose2.Given? then s.pose2.pose else NO_POSE;
  }

  /** Flattening is injective: two lists of valid segments with the same rows are the same. */
  lemma RowsDetermineSegments(a: seq<Segment>, b: seq<Segment>)
    requires forall i | 0 <= i < |a| :: ValidSegment(a[i])
    requires forall i | 0 <= i < |b| :: ValidSegment(b[i])
    requires Rows(a) == Rows(b)
    ensures a == b
  {
    forall i | 0 <= i < |a| ensures a[i] == b[i] {
      assert Rows(a)[i] == Rows(b)[i];
      RowDecodes(a[i]);
      RowDecodes(b[i]);
    }
  }

  // ---------- the C++ client ----------

  /** MOVE_POSB: two task poses, blend type and radius, as numbers. */
  datatype MovePosb = MovePosb(targetPos: seq<seq<real>>, blendType: int, blendRad: real)

  predicate ValidPosb(p: MovePosb) {
    |p.targetPos| == 2 && |p.targetPos[0]| == POINT_COUNT && |p.targetPos[1]| == POINT_COUNT
  }

  function CppRow(p: MovePosb): seq<real>
    requires ValidPosb(p)
  {
    p.targetPos[0] + p.targetPos[1] + [p.blendType as real] + [p.blendRad]
  }

  /** `CDsrRobot::_moveb` up to the service call. */
  method CppMovebRows(targets: seq<MovePosb>) returns (segments: seq<seq<real>>)
    requires forall i | 0 <= i < |targets| :: ValidPosb(targets[i])
    ensures |segments| == |targets|
    ensures forall i | 0 <= i < |targets| :: segments[i] == CppRow(targets[i])
  {
    segments := [];
    var segment: seq<real> := [];
    for i := 0 to |targets|
      invariant |segments| == i
      invariant forall k | 0 <= k < i :: segments[k] == CppRow(targets[k])
    {
      segment := [];
      for j := 0 to POINT_COUNT
        invariant segment == targets[i].targetPos[0][..j]
      {
        segment := segment + [targets[i].targetPos[0][j]];
      }
      for j := 0 to POINT_COUNT
        invariant segment == targets[i].targetPos[0] + targets[i].targetPos[1][..j]
      {
        segment := segment + [targets[i].targetPos[1][j]];
      }
      segment := segment + [targets[i].blendType as real];
      segment := segment + [targets[i].blendRad];
      segments := segments + [segment];
    }
  }

  predicate AllNumeric(s: seq<Py>) {
    forall k | 0 <= k < |s| :: Numeric(s[k])
  }

  function Numbers(s: seq<Py>): (r: seq<real>)
    requires AllNumeric(s)
    ensures |r| == |s| && forall k | 0 <= k < |s| :: r[k] == Num(s[k])
  {
    seq(|s|, k requires 0 <= k < |s| => Num(s[k]))
  }

  predicate NumericSegment(s: Segment) {
    ValidSegment(s) && AllNumeric(s.pose1) && (s.pose2.Given? ==> AllNumeric(s.pose2.pose))
  }

  /** The same segment as a C++ client holds it, its unused pose zeroed. */
  function ToPosb(s: Segment): (p: MovePosb)
    requires NumericSegment(s)
    ensures ValidPosb(p)
  {
    var pose2 := if s.pose2.Given? then Numbers(s.pose2.pose) else Numbers(NO_POSE);
    MovePosb([Numbers(s.pose1), pose2], s.kind, Num(s.radius))
  }

  /** The two clients send the same numbers for the same segments. */
  method ClientsAgree(segs: seq<Posb>) returns (python: seq<seq<Py>>, cpp: seq<seq<real>>)
    requires segs != [] && forall i | 0 <= i < |segs| :: NumericSegment(segs[i].View())
    ensures |python| == |cpp| == |segs|
    ensures forall i | 0 <= i < |segs| :: AllNumeric(python[i]) && Numbers(python[i]) == cpp[i]
  {
    var r := MovebRows(segs);
    python := r.value;
    var targets: seq<MovePosb> := [];
    for i := 0 to |segs|
      invariant |targets| == i && forall k | 0 <= k < i :: targets[k] == ToPosb(segs[k].View())
    {
      targets := targets + [ToPosb(Segment(segs[i].segType, segs[i].posx1, segs[i].posx2, segs[i].radius))];
    }
    cpp := CppMovebRows(targets);
    forall i | 0 <= i < |segs| ensures AllNumeric(python[i]) && Numbers(python[i]) == cpp[i] {
      RowNumbers(segs[i].View());
    }
  }

  lemma RowNumbers(s: Segment)
    requires NumericSegment(s)
    ensures AllNumeric(Row(s))
    ensures Numbers(Row(s)) == CppRow(ToPosb(s))
  {
    var pose2 := if s.pose2.Given? then s.pose2.pose else NO_POSE;
    assert AllNumeric(pose2);
    var row := Row(s);
    assert forall k | 0 <= k < 6 :: row[k] == s.pose1[k];
    assert forall k | 6 <= k < 12 :: row[k] == pose2[k - 6];
  }
}
