/** Bit masks over unbounded naturals: `0x1 << i` is `Pow2(i)`, `|` is `BitOr`. */
module Bits {

  function Pow2(n: nat): (p: nat)
    ensures p >= 1
  {
    if n == 0 then 1 else 2 * Pow2(n - 1)
  }

  function BitOr(a: nat, b: nat): nat
    decreases a + b
  {
    if a == 0 then b
    else if b == 0 then a
    else 2 * BitOr(a / 2, b / 2) + (if a % 2 == 1 || b % 2 == 1 then 1 else 0)
  }

  predicate TestBit(m: nat, i: nat) {
    if i == 0 then m % 2 == 1 else TestBit(m / 2, i - 1)
  }

  /** Only bits `0 .. n-1` may be set. */
  ghost predicate MaskWithin(m: nat, n: nat) {
    forall k: nat :: TestBit(m, k) ==> k < n
  }

  lemma {:induction false} ZeroHasNoBits(i: nat)
    ensures !TestBit(0, i)
  {
    if i > 0 { ZeroHasNoBits(i - 1); }
  }

  lemma {:induction false} OrIsUnion(a: nat, b: nat, i: nat)
    ensures TestBit(BitOr(a, b), i) <==> TestBit(a, i) || TestBit(b, i)
  {
    ZeroHasNoBits(i);
    if a != 0 && b != 0 && i > 0 {
      assert BitOr(a, b) / 2 == BitOr(a / 2, b / 2);
      OrIsUnion(a / 2, b / 2, i - 1);
    }
  }

  lemma {:induction false} ShiftedOne(k: nat, i: nat)
    ensures TestBit(Pow2(k), i) <==> i == k
  {
    if i > 0 {
      if k == 0 { ZeroHasNoBits(i - 1); } else { ShiftedOne(k - 1, i - 1); }
    }
  }

  /** `2^n - 1` has exactly the bits below `n`. */
  lemma {:induction false} FullMask(n: nat, i: nat)
    ensures TestBit(Pow2(n) - 1, i) <==> i < n
  {
    if n == 0 {
      ZeroHasNoBits(i);
    } else if i > 0 {
      assert (Pow2(n) - 1) / 2 == Pow2(n - 1) - 1;
      FullMask(n - 1, i - 1);
    }
  }

  /** A mask is determined by its bits. */
  lemma {:induction false} SameBits(a: nat, b: nat)
    requires forall i: nat :: TestBit(a, i) == TestBit(b, i)
    ensures a == b
  {
    assert TestBit(a, 0) == TestBit(b, 0);
    if a != 0 || b != 0 {
      forall i: nat ensures TestBit(a / 2, i) == TestBit(b / 2, i) {
        assert TestBit(a, i + 1) == TestBit(b, i + 1);
      }
      SameBits(a / 2, b / 2);
    }
  }

  /** A mask without bits at or above `n` is below `2^n`. */
  lemma {:induction false} BoundedMask(m: nat, n: nat)
    requires forall i: nat | i >= n :: !TestBit(m, i)
    ensures m < Pow2(n)
  {
    if n == 0 {
      forall i: nat ensures TestBit(m, i) == TestBit(0, i) { ZeroHasNoBits(i); }
      SameBits(m, 0);
    } else {
      forall i: nat | i >= n - 1 ensures !TestBit(m / 2, i) {
        assert !TestBit(m, i + 1);
      }
      BoundedMask(m / 2, n - 1);
    }
  }

  /** Setting bit `n` of the mask of all lower bits: one step of `nWaitBit |= 0x1 << n`. */
  lemma GrowMask(n: nat)
    ensures BitOr(Pow2(n) - 1, Pow2(n)) == Pow2(n + 1) - 1
  {
    var a, b := BitOr(Pow2(n) - 1, Pow2(n)), Pow2(n + 1) - 1;
    forall i: nat ensures TestBit(a, i) == TestBit(b, i) {
      OrIsUnion(Pow2(n) - 1, Pow2(n), i);
      FullMask(n, i);
      FullMask(n + 1, i);
      ShiftedOne(n, i);
    }
    SameBits(a, b);
  }
}
