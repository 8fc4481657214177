/** The mask arithmetic of the C++ rendezvous (dsr_util.h): `unsigned int` masks of 32 bits and at
    most `MAX_ROBOT` robots. Flags are read while other threads write them, so a scan is given the
    values its reads return. */
module SyncMask32 {
  import opened Bits

  const MAX_ROBOT: nat := 8
  const UINT_RANGE: nat := 0x1_0000_0000

  /** `0x1 << i`, `a | b` as 32-bit operations. */
  function Shift32(i: nat): nat { Pow2(i) % UINT_RANGE }
  function Or32(a: nat, b: nat): nat { BitOr(a, b) % UINT_RANGE }

  lemma MonotonePow2(a: nat, b: nat)
    requires a <= b
    ensures Pow2(a) <= Pow2(b)
  {
    if a < b { MonotonePow2(a, b - 1); }
  }

  lemma PowerOfEight()
    ensures Pow2(MAX_ROBOT) == 256
  {
    assert Pow2(4) == 16;
    assert Pow2(7) == 8 * Pow2(4);
  }

  /** With at most 8 robots nothing is ever truncated: the 32-bit step is the unbounded one. */
  lemma NoTruncation(m: nat, i: nat)
    requires MaskWithin(m, MAX_ROBOT) && i < MAX_ROBOT
    ensures Or32(m, Shift32(i)) == BitOr(m, Pow2(i))
    ensures MaskWithin(BitOr(m, Pow2(i)), MAX_ROBOT)
    ensures forall k: nat :: TestBit(BitOr(m, Pow2(i)), k) <==> TestBit(m, k) || k == i
  {
    PowerOfEight();
    MonotonePow2(i, MAX_ROBOT);
    assert Shift32(i) == Pow2(i);
    forall k: nat ensures TestBit(BitOr(m, Pow2(i)), k) <==> TestBit(m, k) || k == i {
      OrIsUnion(m, Pow2(i), k);
      ShiftedOne(i, k);
    }
    BoundedMask(BitOr(m, Pow2(i)), MAX_ROBOT);
  }

  /** Robot `k` was read as waiting in one of the scans. */
  ghost predicate SeenIn(scans: seq<seq<bool>>, k: nat) {
    exists p | 0 <= p < |scans| :: k < |scans[p]| && scans[p][k]
  }

  ghost predicate AllSeenIn(scans: seq<seq<bool>>, n: nat) {
    forall k: nat | k < n :: SeenIn(scans, k)
  }

  ghost predicate MaskOf(m: nat, scans: seq<seq<bool>>) {
    forall k: nat :: TestBit(m, k) <==> SeenIn(scans, k)
  }

  /** How the loop ends; `Scanning` when it is still running after the given passes. */
  datatype End = AllSeen | RunOver | Scanning

  class CRobotSync {
    const m_nRobot: nat
    var m_nWaitBit: nat
    var m_nCurBit: nat

    ghost predicate Valid()
      reads this
    {
      m_nRobot <= MAX_ROBOT && m_nWaitBit == Pow2(m_nRobot) - 1 && MaskWithin(m_nCurBit, MAX_ROBOT)
    }

    constructor (r: nat)
      requires r <= MAX_ROBOT
      ensures Valid() && m_nRobot == r && m_nCurBit == 0
    {
      m_nRobot, m_nWaitBit, m_nCurBit := r, 0, 0;
      new;
      for i := 0 to r
        invariant m_nRobot == r && m_nCurBit == 0 && m_nWaitBit == Pow2(i) - 1
      {
        GrowMask(i);
        forall k: nat ensures TestBit(m_nWaitBit, k) <==> k < i { FullMask(i, k); }
        NoTruncation(m_nWaitBit, i);
        m_nWaitBit := Or32(m_nWaitBit, Shift32(i));
      }
      forall k: nat ensures !TestBit(0, k) { ZeroHasNoBits(k); }
    }

    /** One pass over the flags. */
    method Scan(isWait: seq<bool>)
      requires Valid() && |isWait| == m_nRobot
      modifies this`m_nCurBit
      ensures Valid()
      ensures forall k: nat :: TestBit(m_nCurBit, k) <==> TestBit(old(m_nCurBit), k) || (k < m_nRobot && isWait[k])
    {
      for i := 0 to m_nRobot
        invariant Valid()
        invariant forall k: nat :: TestBit(m_nCurBit, k) <==> TestBit(old(m_nCurBit), k) || (k < i && isWait[k])
      {
        if isWait[i] {
          NoTruncation(m_nCurBit, i);
          m_nCurBit := Or32(m_nCurBit, Shift32(i));
        }
      }
    }

    /** The scanning loop of `WakeUpAll` over the values that its passes read: `running[p]` of
        `m_nIsRun` before pass `p`, and `scans[p]` of the flags. It ends with the first pass that
        completes the set of robots seen waiting, or before the first pass that finds the run over. */
    method WakeUpAll(scans: seq<seq<bool>>, running: seq<bool>) returns (end: End, passes: nat)
      requires Valid() && |running| == |scans| && forall p | 0 <= p < |scans| :: |scans[p]| == m_nRobot
      modifies this`m_nCurBit
      ensures Valid() && passes <= |scans| && MaskOf(m_nCurBit, scans[..passes])
      ensures forall p | 0 <= p < passes :: running[p]
      ensures forall q | 0 < q < passes :: !AllSeenIn(scans[..q], m_nRobot)
      ensures end == AllSeen <==> passes > 0 && AllSeenIn(scans[..passes], m_nRobot)
      ensures end == RunOver ==> passes < |scans| && !running[passes]
      ensures end == Scanning ==> passes == |scans|
    {
      m_nCurBit, passes := 0, 0;
      forall k: nat ensures !TestBit(0, k) { ZeroHasNoBits(k); }
      while passes < |scans|
        invariant Valid() && passes <= |scans| && MaskOf(m_nCurBit, scans[..passes])
        invariant forall p | 0 <= p < passes :: running[p]
        invariant forall q | 0 < q <= passes :: !AllSeenIn(scans[..q], m_nRobot)
      {
        if !running[passes] { return RunOver, passes; }
        Scan(scans[passes]);
        SeenInOneMore(scans, passes, m_nRobot);
        FullMeansAllSeen(m_nCurBit, scans[..passes + 1], m_nRobot);
        passes := passes + 1;
        if m_nWaitBit == m_nCurBit { return AllSeen, passes; }
      }
      return Scanning, passes;
    }
  }

  lemma SeenInOneMore(scans: seq<seq<bool>>, p: nat, n: nat)
    requires p < |scans| && |scans[p]| == n
    ensures forall k: nat :: SeenIn(scans[..p + 1], k) <==> SeenIn(scans[..p], k) || (k < n && scans[p][k])
  {
    var before, after := scans[..p], scans[..p + 1];
    assert after == before + [scans[p]];
    forall k: nat ensures SeenIn(after, k) <==> SeenIn(before, k) || (k < n && scans[p][k]) {
      if k < n && scans[p][k] { assert after[p][k]; }
      if SeenIn(before, k) { var q :| 0 <= q < p && k < |before[q]| && before[q][k]; assert after[q][k]; }
    }
  }

  lemma FullMeansAllSeen(m: nat, scans: seq<seq<bool>>, n: nat)
    requires MaskOf(m, scans) && forall p | 0 <= p < |scans| :: |scans[p]| == n
    ensures m == Pow2(n) - 1 <==> AllSeenIn(scans, n)
  {
    var full := Pow2(n) - 1;
    forall k: nat ensures TestBit(full, k) <==> k < n { FullMask(n, k); }
    if AllSeenIn(scans, n) {
      forall k: nat ensures TestBit(m, k) == TestBit(full, k) {
        if k < n { assert SeenIn(scans, k); }
      }
      SameBits(m, full);
    } else {
      var k: nat :| k < n && !SeenIn(scans, k);
      assert TestBit(full, k) && !TestBit(m, k);
    }
  }
}
