/** The waypoint generators of arc_motion.py and sine_wave.py. Sine and cosine are any two functions
    with the usual identities. */
module ArcGeometry {
  import opened MotionWorld

  datatype Trig = Trig(sin: real -> real, cos: real -> real, pi: real)

  function Sin(trig: Trig, a: real): real { trig.sin(a) }

  function Cos(trig: Trig, a: real): real { trig.cos(a) }

  ghost predicate Identities(trig: Trig) {
    && trig.pi > 0.0 && OnUnitCircle(trig) && OddAndEven(trig) && Periodic(trig) && Subtracts(trig)
    && PositiveFirst(trig)
  }

  ghost predicate OnUnitCircle(trig: Trig) {
    forall a :: Sin(trig, a) * Sin(trig, a) + Cos(trig, a) * Cos(trig, a) == 1.0
  }

  ghost predicate OddAndEven(trig: Trig) {
    forall a, b :: b == -a ==> Sin(trig, b) == -Sin(trig, a) && Cos(trig, b) == Cos(trig, a)
  }

  ghost predicate Periodic(trig: Trig) {
    forall a, b :: b == a + 2.0 * trig.pi ==> Sin(trig, b) == Sin(trig, a)
  }

  ghost predicate Subtracts(trig: Trig) {
    forall a, b, c :: c == a - b ==> Cos(trig, c) == Cos(trig, a) * Cos(trig, b) + Sin(trig, a) * Sin(trig, b)
  }

  ghost predicate PositiveFirst(trig: Trig) {
    forall a | 0.0 < a < trig.pi :: Sin(trig, a) > 0.0
  }

  datatype Arc = Arc(cx: real, cy: real, cz: real, radius: real, startDeg: real, endDeg: real)

  /** The arc of the node. */
  const ARC := Arc(0.0, 60.0, 700.0, 500.0, -50.0, 50.0)

  datatype Pose = Pose(x: real, y: real, z: real, oa: real, ob: real, oc: real)

  function Radians(trig: Trig, deg: real): real {
    deg * trig.pi / 180.0
  }

  /** The i-th of n evenly spaced parameters from 0 to 1. */
  function Parameter(i: nat, n: nat): real
    requires n >= 2
  {
    i as real / (n - 1) as real
  }

  function Angle(trig: Trig, arc: Arc, i: nat, n: nat): real
    requires n >= 2
  {
    Radians(trig, arc.startDeg + Parameter(i, n) * (arc.endDeg - arc.startDeg))
  }

  /** The point of the circle at an angle measured from the y axis. */
  function OnArc(trig: Trig, arc: Arc, theta: real): Pose {
    Pose(arc.cx + arc.radius * Sin(trig, theta), arc.cy + arc.radius * Cos(trig, theta), arc.cz, 90.0, 95.0, 0.0)
  }

  function SquareDistance(p: Pose, q: Pose): real {
    (p.x - q.x) * (p.x - q.x) + (p.y - q.y) * (p.y - q.y) + (p.z - q.z) * (p.z - q.z)
  }

  /** The constant difference of two neighbouring angles. */
  function AngleStep(trig: Trig, arc: Arc, n: nat): real
    requires n >= 2
  {
    Radians(trig, arc.endDeg - arc.startDeg) / (n - 1) as real
  }

  /** `generate_waypoints`. */
  method GenerateWaypoints(trig: Trig, arc: Arc, n: nat) returns (waypoints: seq<Pose>)
    requires Identities(trig) && n >= 2
    ensures |waypoints| == n
    ensures waypoints[0] == OnArc(trig, arc, Radians(trig, arc.startDeg))
    ensures waypoints[n - 1] == OnArc(trig, arc, Radians(trig, arc.endDeg))
    ensures forall i | 0 <= i < n :: waypoints[i] == OnArc(trig, arc, Angle(trig, arc, i, n))
    ensures forall i | 0 <= i < n ::
      SquareDistance(waypoints[i], Pose(arc.cx, arc.cy, arc.cz, 0.0, 0.0, 0.0)) == arc.radius * arc.radius
  {
    hide Identities, SquareDistance;
    waypoints := [];
    for i := 0 to n
      invariant |waypoints| == i
      invariant forall j | 0 <= j < i :: waypoints[j] == OnArc(trig, arc, Angle(trig, arc, j, n))
    {
      var t := Parameter(i, n);
      var theta := Radians(trig, arc.startDeg + t * (arc.endDeg - arc.startDeg));
      var x := arc.cx + arc.radius * Sin(trig, theta);
      var y := arc.cy + arc.radius * Cos(trig, theta);
      assert theta == Angle(trig, arc, i, n) && x == OnArc(trig, arc, theta).x;
      waypoints := waypoints + [Pose(x, y, arc.cz, 90.0, 95.0, 0.0)];
    }
    Ends(trig, arc, n);
    forall i | 0 <= i < n
      ensures SquareDistance(waypoints[i], Pose(arc.cx, arc.cy, arc.cz, 0.0, 0.0, 0.0)) == arc.radius * arc.radius
    {
      OnTheCircle(trig, arc, Angle(trig, arc, i, n));
    }
  }

  lemma Ends(trig: Trig, arc: Arc, n: nat)
    requires n >= 2
    ensures Angle(trig, arc, 0, n) == Radians(trig, arc.startDeg)
    ensures Angle(trig, arc, n - 1, n) == Radians(trig, arc.endDeg)
  {
    assert Parameter(0, n) == 0.0 && Parameter(n - 1, n) == 1.0;
  }

  lemma OnTheCircle(trig: Trig, arc: Arc, theta: real)
    requires Identities(trig)
    ensures SquareDistance(OnArc(trig, arc, theta), Pose(arc.cx, arc.cy, arc.cz, 0.0, 0.0, 0.0))
         == arc.radius * arc.radius
  {
    hide OddAndEven, Periodic, Subtracts;
    ScaledPair(arc.radius, Sin(trig, theta), Cos(trig, theta));
  }

  lemma ScaledPair(r: real, s: real, c: real)
    ensures (r * s) * (r * s) + (r * c) * (r * c) == r * r * (s * s + c * c)
  {
  }

  /** The angles go from the start to the end in equal steps, upwards if the end is above the start. */
  lemma EquallySpaced(trig: Trig, arc: Arc, i: nat, n: nat)
    requires trig.pi > 0.0 && i + 1 < n
    ensures Angle(trig, arc, 0, n) == Radians(trig, arc.startDeg)
    ensures Angle(trig, arc, n - 1, n) == Radians(trig, arc.endDeg)
    ensures Angle(trig, arc, i + 1, n) - Angle(trig, arc, i, n) == AngleStep(trig, arc, n)
    ensures arc.startDeg < arc.endDeg ==> Angle(trig, arc, i, n) < Angle(trig, arc, i + 1, n)
  {
    var m, d := (n - 1) as real, arc.endDeg - arc.startDeg;
    assert Parameter(0, n) == 0.0 && Parameter(n - 1, n) == 1.0;
    assert Parameter(i + 1, n) == Parameter(i, n) + 1.0 / m;
    assert Parameter(i + 1, n) * d == Parameter(i, n) * d + d / m;
    StepInRadians(trig.pi, d, m);
  }

  lemma StepInRadians(pi: real, d: real, m: real)
    requires pi > 0.0 && m > 0.0
    ensures (d / m) * pi / 180.0 == (d * pi / 180.0) / m
    ensures d > 0.0 ==> (d * pi / 180.0) / m > 0.0
  {
  }

  /** Neighbouring waypoints are all the same distance apart. */
  lemma EqualChords(trig: Trig, arc: Arc, i: nat, n: nat)
    requires Identities(trig) && i + 1 < n
    ensures var p, q := OnArc(trig, arc, Angle(trig, arc, i, n)), OnArc(trig, arc, Angle(trig, arc, i + 1, n));
            SquareDistance(p, q) == ChordSquare(arc, Cos(trig, AngleStep(trig, arc, n)))
  {
    hide Angle, AngleStep, OnUnitCircle, OddAndEven, Periodic, Subtracts, SquareDistance, OnArc;
    EquallySpaced(trig, arc, i, n);
    ChordOfStep(trig, arc, Angle(trig, arc, i, n), Angle(trig, arc, i + 1, n));
  }

  lemma ChordOfStep(trig: Trig, arc: Arc, b: real, a: real)
    requires Identities(trig)
    ensures SquareDistance(OnArc(trig, arc, b), OnArc(trig, arc, a)) == ChordSquare(arc, Cos(trig, a - b))
  {
    hide Identities, Sin, Cos, SquareDistance, Dot, ChordSquare;
    CosOfDifference(trig, a, b);
    Chord(OnArc(trig, arc, b), OnArc(trig, arc, a), arc, Sin(trig, b), Cos(trig, b), Sin(trig, a), Cos(trig, a));
  }

  /** The squared chord over an angle with cosine `c`. */
  function ChordSquare(arc: Arc, c: real): real {
    2.0 * arc.radius * arc.radius * (1.0 - c)
  }

  function Dot(c: real, s: real, c': real, s': real): real {
    c * c' + s * s'
  }

  lemma CosOfDifference(trig: Trig, a: real, b: real)
    requires Identities(trig)
    ensures Cos(trig, a - b) == Dot(Cos(trig, a), Sin(trig, a), Cos(trig, b), Sin(trig, b))
    ensures Dot(Cos(trig, a), Sin(trig, a), Cos(trig, a), Sin(trig, a)) == 1.0
    ensures Dot(Cos(trig, b), Sin(trig, b), Cos(trig, b), Sin(trig, b)) == 1.0
  {
    hide OddAndEven, Periodic, Sin, Cos;
  }

  lemma Chord(p: Pose, q: Pose, arc: Arc, s: real, c: real, s': real, c': real)
    requires Dot(c, s, c, s) == 1.0 && Dot(c', s', c', s') == 1.0
    requires p.x == arc.cx + arc.radius * s && p.y == arc.cy + arc.radius * c
    requires q.x == arc.cx + arc.radius * s' && q.y == arc.cy + arc.radius * c' && p.z == q.z
    ensures SquareDistance(p, q) == ChordSquare(arc, Dot(c', s', c, s))
  {
    var r := arc.radius;
    var dx, dy := r * (s - s'), r * (c - c');
    assert p.x - q.x == dx && p.y - q.y == dy && p.z - q.z == 0.0;
    assert dx * dx + dy * dy == r * r * ((s * s + c * c) + (s' * s' + c' * c') - 2.0 * (c' * c + s' * s));
  }

  /** The mirror image in x about the centre. */
  function Mirrored(arc: Arc, p: Pose): Pose {
    p.(x := 2.0 * arc.cx - p.x)
  }

  /** On a symmetric arc the reversed list, which the backward sweep follows, is the mirror image. */
  lemma ReversedIsMirrored(trig: Trig, arc: Arc, waypoints: seq<Pose>, k: nat)
    requires Identities(trig) && arc.startDeg == -arc.endDeg && |waypoints| >= 2 && k < |waypoints|
    requires forall i | 0 <= i < |waypoints| :: waypoints[i] == OnArc(trig, arc, Angle(trig, arc, i, |waypoints|))
    ensures waypoints[|waypoints| - 1 - k] == Mirrored(arc, waypoints[k])
  {
    hide Identities, OnArc, Mirrored, Angle;
    OppositeAngles(trig, arc, k, |waypoints|);
    MirrorsNegation(trig, arc, Angle(trig, arc, k, |waypoints|), Angle(trig, arc, |waypoints| - 1 - k, |waypoints|));
  }

  lemma OppositeAngles(trig: Trig, arc: Arc, k: nat, n: nat)
    requires arc.startDeg == -arc.endDeg && n >= 2 && k < n
    ensures Angle(trig, arc, n - 1 - k, n) == -Angle(trig, arc, k, n)
  {
    var d := arc.endDeg - arc.startDeg;
    Opposite(k, n, d);
    hide Parameter;
    assert arc.startDeg + Parameter(n - 1 - k, n) * d == -(arc.startDeg + Parameter(k, n) * d);
    NegatedRadians(trig, arc.startDeg + Parameter(k, n) * d);
  }

  lemma NegatedRadians(trig: Trig, deg: real)
    ensures Radians(trig, -deg) == -Radians(trig, deg)
  {
  }

  lemma MirrorsNegation(trig: Trig, arc: Arc, theta: real, opposite: real)
    requires Identities(trig) && opposite == -theta
    ensures OnArc(trig, arc, opposite) == Mirrored(arc, OnArc(trig, arc, theta))
  {
    hide OnUnitCircle, Periodic, Subtracts, Sin, Cos;
    NegatedProduct(arc.radius, Sin(trig, theta), Sin(trig, opposite));
    var p, q := OnArc(trig, arc, theta), OnArc(trig, arc, opposite);
    assert q.x == 2.0 * arc.cx - p.x && q.y == p.y;
  }

  lemma NegatedProduct(r: real, s: real, s': real)
    requires s' == -s
    ensures r * s' == -(r * s)
  {
  }

  /** The two lists the node keeps: the waypoints, and the reversed copy for backward sweeps. */
  method NodePaths(trig: Trig, n: nat) returns (waypoints: seq<Pose>, waypointsRev: seq<Pose>)
    requires Identities(trig) && n >= 2
    ensures |waypoints| == n && waypointsRev == Reverse(waypoints)
    ensures forall i | 0 <= i < n :: waypointsRev[i] == Mirrored(ARC, waypoints[i])
  {
    hide Identities, Mirrored, Angle, OnArc, SquareDistance;
    waypoints := GenerateWaypoints(trig, ARC, n);
    waypointsRev := Reverse(waypoints);
    forall i | 0 <= i < n ensures waypointsRev[i] == Mirrored(ARC, waypoints[i]) {
      ReversedIsMirrored(trig, ARC, waypoints, i);
    }
  }

  lemma Opposite(k: nat, n: nat, d: real)
    requires n >= 2 && k < n
    ensures Parameter(n - 1 - k, n) * d == d - Parameter(k, n) * d
  {
    var m := (n - 1) as real;
    assert (n - 1 - k) as real == m - k as real;
    Cancel((m - k as real) / m, 1.0 - k as real / m, m);
  }

  lemma Cancel(x: real, y: real, m: real)
    requires m != 0.0 && x * m == y * m
    ensures x == y
  {
  }

  const START_X := -300.0
  const END_X := 300.0
  const BASE_Y := 300.0
  const BASE_Z := 500.0
  const AMPLITUDE := 120.0
  const WAVE_CYCLES := 1.0

  /** The half-turn about the middle of the wave. */
  function Turned(p: Pose): Pose {
    p.(x := START_X + END_X - p.x, y := 2.0 * BASE_Y - p.y)
  }

  /** `generate_sine_wave`: evenly spaced in x from start to end, within the amplitude of the base
      line, and the reversed list is the half-turn of the list about the middle of the wave. */
  method GenerateSineWave(trig: Trig, n: nat) returns (waypoints: seq<Pose>)
    requires Identities(trig) && n >= 2
    ensures |waypoints| == n && waypoints[0].x == START_X && waypoints[n - 1].x == END_X
    ensures forall i | 0 <= i < n ::
      waypoints[i] == Pose(START_X + (END_X - START_X) * Parameter(i, n), waypoints[i].y, BASE_Z, 90.0, 90.0, 0.0)
    ensures forall i | 0 <= i < n :: -AMPLITUDE <= waypoints[i].y - BASE_Y <= AMPLITUDE
    ensures forall i | 0 <= i < n ::
      waypoints[n - 1 - i] == Turned(waypoints[i])
  {
    waypoints := [];
    var length := END_X - START_X;
    for i := 0 to n
      invariant |waypoints| == i
      invariant forall j | 0 <= j < i :: waypoints[j] == OnWave(trig, Parameter(j, n))
    {
      var t := Parameter(i, n);
      var x := START_X + length * t;
      var angle := 2.0 * trig.pi * WAVE_CYCLES * t;
      var y := BASE_Y + AMPLITUDE * Sin(trig, angle);
      assert angle == WaveAngle(trig, t);
      assert x == OnWave(trig, t).x && y == OnWave(trig, t).y;
      waypoints := waypoints + [Pose(x, y, BASE_Z, 90.0, 90.0, 0.0)];
    }
    hide OnWave;
    WaveEnds(trig, n);
    forall i | 0 <= i < n
      ensures -AMPLITUDE <= waypoints[i].y - BASE_Y <= AMPLITUDE
      ensures waypoints[n - 1 - i] == Turned(waypoints[i])
    {
      HalfTurn(trig, i, n);
    }
  }

  function WaveAngle(trig: Trig, t: real): real {
    2.0 * trig.pi * WAVE_CYCLES * t
  }

  function OnWave(trig: Trig, t: real): Pose {
    Pose(START_X + (END_X - START_X) * t, BASE_Y + AMPLITUDE * Sin(trig, WaveAngle(trig, t)), BASE_Z, 90.0, 90.0, 0.0)
  }

  lemma WaveEnds(trig: Trig, n: nat)
    requires n >= 2
    ensures OnWave(trig, Parameter(0, n)).x == START_X && OnWave(trig, Parameter(n - 1, n)).x == END_X
    ensures forall t ::
      OnWave(trig, t) == Pose(START_X + (END_X - START_X) * t, OnWave(trig, t).y, BASE_Z, 90.0, 90.0, 0.0)
  {
    assert Parameter(0, n) == 0.0 && Parameter(n - 1, n) == 1.0;
  }

  lemma WaveIsBounded(trig: Trig, t: real)
    requires Identities(trig)
    ensures -AMPLITUDE <= OnWave(trig, t).y - BASE_Y <= AMPLITUDE
  {
    hide OddAndEven, Periodic, Subtracts, Sin, Cos;
    var a := WaveAngle(trig, t);
    SineIsBounded(Sin(trig, a), Cos(trig, a));
  }

  /** The sine at the other end of the wave is the opposite one. */
  lemma SineTurns(trig: Trig, a: real, b: real)
    requires Identities(trig) && b == -a + 2.0 * trig.pi
    ensures Sin(trig, b) == -Sin(trig, a)
  {
    hide OnUnitCircle, Subtracts, Sin, Cos;
    var c := -a;
    assert Sin(trig, c) == -Sin(trig, a);
  }

  lemma WaveTurns(trig: Trig, t: real)
    requires Identities(trig)
    ensures OnWave(trig, 1.0 - t) == Turned(OnWave(trig, t))
  {
    hide Identities, Sin;
    var a, b := WaveAngle(trig, t), WaveAngle(trig, 1.0 - t);
    assert b == -a + 2.0 * trig.pi;
    SineTurns(trig, a, b);
  }

  lemma HalfTurn(trig: Trig, i: nat, n: nat)
    requires Identities(trig) && n >= 2 && i < n
    ensures var p := OnWave(trig, Parameter(i, n));
            && -AMPLITUDE <= p.y - BASE_Y <= AMPLITUDE
            && OnWave(trig, Parameter(n - 1 - i, n)) == Turned(p)
  {
    hide OnWave, Identities;
    Opposite(i, n, 1.0);
    WaveIsBounded(trig, Parameter(i, n));
    WaveTurns(trig, Parameter(i, n));
  }

  lemma SineIsBounded(s: real, c: real)
    requires s * s + c * c == 1.0
    ensures -1.0 <= s <= 1.0
  {
    assert s * s <= 1.0;
  }

  /** Which way the arc runs: a point left of the middle of the circle for a negative angle, right of it for
      a positive one, up to a half-turn, and straight up for the angle zero. */
  lemma ArcRunsLeftToRight(trig: Trig, arc: Arc, theta: real)
    requires Identities(trig) && arc.radius > 0.0
    ensures 0.0 < theta < trig.pi ==> OnArc(trig, arc, theta).x > arc.cx
    ensures -trig.pi < theta < 0.0 ==> OnArc(trig, arc, theta).x < arc.cx
    ensures theta == 0.0 ==> OnArc(trig, arc, theta).x == arc.cx && OnArc(trig, arc, theta).y == arc.cy + arc.radius
  {
    hide OnUnitCircle, Periodic, Subtracts, Sin, Cos;
    var opposite, s := -theta, Sin(trig, theta);
    assert Sin(trig, opposite) == -s;
    Signs(arc.radius, s);
    if theta == 0.0 { ZeroAngle(trig); }
  }

  lemma Signs(r: real, s: real)
    requires r > 0.0
    ensures (s > 0.0 ==> r * s > 0.0) && (s < 0.0 ==> r * s < 0.0)
  {
  }

  lemma ZeroAngle(trig: Trig)
    requires Identities(trig)
    ensures Sin(trig, 0.0) == 0.0 && Cos(trig, 0.0) == 1.0
  {
    hide Sin, Cos, Periodic;
    var zero := 0.0;
    assert Sin(trig, zero) == -Sin(trig, zero);
    assert Cos(trig, zero) == Cos(trig, zero) * Cos(trig, zero) + Sin(trig, zero) * Sin(trig, zero);
  }

  /** The node's arc has every waypoint of its first half left of the centre and of its second half right
      of it. */
  lemma WaypointsRunLeftToRight(trig: Trig, i: nat, n: nat)
    requires Identities(trig) && n >= 2 && i < n
    ensures var p := OnArc(trig, ARC, Angle(trig, ARC, i, n));
      && (2 * i < n - 1 ==> p.x < ARC.cx) && (2 * i > n - 1 ==> p.x > ARC.cx)
      && (2 * i == n - 1 ==> p.x == ARC.cx && p.y == ARC.cy + ARC.radius)
  {
    hide Identities, OnArc;
    PiIsPositive(trig);
    AngleSign(trig, i, n);
    ArcRunsLeftToRight(trig, ARC, Angle(trig, ARC, i, n));
  }

  lemma PiIsPositive(trig: Trig)
    requires Identities(trig)
    ensures trig.pi > 0.0
  {
    hide OnUnitCircle, OddAndEven, Periodic, Subtracts, PositiveFirst;
  }

  lemma AngleSign(trig: Trig, i: nat, n: nat)
    requires trig.pi > 0.0 && n >= 2 && i < n
    ensures var a := Angle(trig, ARC, i, n);
      && -trig.pi < a < trig.pi
      && (2 * i < n - 1 ==> a < 0.0) && (2 * i > n - 1 ==> a > 0.0) && (2 * i == n - 1 ==> a == 0.0)
  {
    var m, t := (n - 1) as real, Parameter(i, n);
    assert t * m == i as real;
    ParameterRange(t, m, i as real);
    assert (2 * i) as real == 2.0 * (i as real);
    var deg := -50.0 + t * 100.0;
    assert deg == ARC.startDeg + t * (ARC.endDeg - ARC.startDeg);
    assert Angle(trig, ARC, i, n) == Radians(trig, deg);
    hide Angle, Parameter;
    Scales(deg, trig.pi);
  }

  lemma ParameterRange(t: real, m: real, i: real)
    requires m > 0.0 && t * m == i && 0.0 <= i <= m
    ensures 0.0 <= t <= 1.0
    ensures (2.0 * i < m ==> t < 0.5) && (2.0 * i > m ==> t > 0.5) && (2.0 * i == m ==> t == 0.5)
  {
    Signs(m, t);
    Signs(m, 1.0 - t);
    Signs(m, 0.5 - t);
    assert m * (0.5 - t) == 0.5 * m - i && m * (1.0 - t) == m - i;
  }

  lemma Scales(deg: real, pi: real)
    requires pi > 0.0 && -50.0 <= deg <= 50.0
    ensures var a := deg * pi / 180.0;
      -pi < a < pi && (deg < 0.0 ==> a < 0.0) && (deg > 0.0 ==> a > 0.0) && (deg == 0.0 ==> a == 0.0)
  {
    Signs(pi, deg);
    Signs(pi, 180.0 - deg);
    Signs(pi, 180.0 + deg);
    assert pi * (180.0 - deg) == 180.0 * pi - deg * pi;
    assert pi * (180.0 + deg) == 180.0 * pi + deg * pi;
  }

  /** The sine wave goes up first: above the base line in its first half and below it in its second. */
  lemma WaveGoesUpFirst(trig: Trig, t: real)
    requires Identities(trig)
    ensures 0.0 < t < 0.5 ==> OnWave(trig, t).y > BASE_Y
    ensures 0.5 < t < 1.0 ==> OnWave(trig, t).y < BASE_Y
  {
    if 0.0 < t < 0.5 { RisesFirst(trig, t); }
    if 0.5 < t < 1.0 {
      RisesFirst(trig, 1.0 - t);
      WaveTurns(trig, 1.0 - t);
    }
  }

  lemma RisesFirst(trig: Trig, t: real)
    requires Identities(trig) && 0.0 < t < 0.5
    ensures OnWave(trig, t).y > BASE_Y
  {
    hide OnUnitCircle, OddAndEven, Periodic, Subtracts, Sin, Cos;
    var a := WaveAngle(trig, t);
    FirstHalf(trig.pi, t, a);
    assert Sin(trig, a) > 0.0;
    Signs(AMPLITUDE, Sin(trig, a));
  }

  lemma FirstHalf(pi: real, t: real, a: real)
    requires pi > 0.0 && 0.0 < t < 0.5 && a == 2.0 * pi * WAVE_CYCLES * t
    ensures 0.0 < a < pi
  {
    var x := pi * t;
    Signs(pi, t);
    Signs(pi, 0.5 - t);
    assert a == 2.0 * x && pi * (0.5 - t) == 0.5 * pi - x;
  }
}
