/** Joint numbers in names: the two regular expressions of the bridges and the decimal notation
    they read back. `\d` is an ASCII digit here. */
module JointNames {

  /** A joint number, or the `float('inf')` that stands for a missing one. */
  datatype Key = Num(n: nat) | Inf

  predicate IsDigit(c: char) { '0' <= c <= '9' }

  predicate AllDigits(s: string) { forall i | 0 <= i < |s| :: IsDigit(s[i]) }

  predicate NoDigits(s: string) { forall i | 0 <= i < |s| :: !IsDigit(s[i]) }

  function DigitValue(c: char): nat
    requires IsDigit(c)
  {
    c as int - '0' as int
  }

  function DigitChar(d: nat): (c: char)
    requires d < 10
    ensures IsDigit(c) && DigitValue(c) == d
  {
    ('0' as int + d) as char
  }

  /** `int(s)` of a string of digits. */
  function Value(s: string): nat
    requires AllDigits(s)
  {
    if s == "" then 0 else 10 * Value(s[..|s| - 1]) + DigitValue(s[|s| - 1])
  }

  /** The decimal form of `n`. */
  function Decimal(n: nat): (s: string)
    ensures s != "" && AllDigits(s)
  {
    if n < 10 then [DigitChar(n)] else Decimal(n / 10) + [DigitChar(n % 10)]
  }

  lemma {:induction false} ReadsBack(n: nat)
    ensures Value(Decimal(n)) == n
  {
    if n >= 10 {
      ReadsBack(n / 10);
      assert Decimal(n)[..|Decimal(n)| - 1] == Decimal(n / 10);
    }
  }

  /** The longest prefix of digits: what a greedy `\d+` matches here. */
  function DigitRun(s: string): (run: string)
    ensures run <= s && AllDigits(run)
    ensures |run| < |s| ==> !IsDigit(s[|run|])
  {
    if s == "" || !IsDigit(s[0]) then "" else [s[0]] + DigitRun(s[1..])
  }

  lemma {:induction false} DigitRunIs(s: string, k: nat)
    requires k <= |s| && AllDigits(s[..k]) && (k < |s| ==> !IsDigit(s[k]))
    ensures DigitRun(s) == s[..k]
  {
    var run := DigitRun(s);
    assert forall i | 0 <= i < k :: s[..k][i] == s[i] && IsDigit(s[i]);
    assert forall i | 0 <= i < |run| :: run[i] == s[i] && IsDigit(s[i]);
  }

  /** `re.search(r'(\d+)', name)` and its `int`. */
  function AnyNumber(name: string): Key {
    if name == "" then Inf
    else if IsDigit(name[0]) then Num(Value(DigitRun(name)))
    else AnyNumber(name[1..])
  }

  const JOINT: string := "joint_"

  /** `joint_(\d+)` matches at the beginning of `s`. */
  predicate MatchesJoint(s: string) {
    JOINT <= s && |s| > |JOINT| && IsDigit(s[|JOINT|])
  }

  /** `re.search(r'joint_(\d+)', name)` and its `int`. */
  function JointNumber(name: string): Key {
    if name == "" then Inf
    else if MatchesJoint(name) then Num(Value(DigitRun(name[|JOINT|..])))
    else JointNumber(name[1..])
  }

  /** The search finds the leftmost maximal run of digits, and nothing only if there is no digit. */
  lemma {:induction false} AnyNumberIsLeftmost(name: string, at: nat)
    requires at <= |name| && NoDigits(name[..at])
    ensures at == |name| ==> AnyNumber(name) == Inf
    ensures at < |name| && IsDigit(name[at]) ==> AnyNumber(name) == Num(Value(DigitRun(name[at..])))
  {
    if at == 0 {
      assert name[0..] == name;
    } else {
      assert name[0] == name[..at][0];
      assert name[1..][..at - 1] == name[..at][1..];
      AnyNumberIsLeftmost(name[1..], at - 1);
      assert name[1..][at - 1..] == name[at..];
    }
  }

  /** The search finds the leftmost match of the pattern, and nothing only if there is none. */
  lemma {:induction false} JointNumberIsLeftmost(name: string, at: nat)
    requires at <= |name| && forall i | 0 <= i < at :: !MatchesJoint(name[i..])
    ensures at == |name| ==> JointNumber(name) == Inf
    ensures at < |name| && MatchesJoint(name[at..]) ==> JointNumber(name) == Num(Value(DigitRun(name[at..][|JOINT|..])))
  {
    if at == 0 {
      assert name[0..] == name;
    } else {
      assert name[0..] == name;
      assert forall i | 0 <= i < at - 1 :: name[1..][i..] == name[i + 1..];
      JointNumberIsLeftmost(name[1..], at - 1);
      assert name[1..][at - 1..] == name[at..];
    }
  }

  /** Both extractors read `n` back from `joint_<n>`, also behind any prefix without digits. */
  lemma ExtractorsReadBack(prefix: string, n: nat)
    requires NoDigits(prefix)
    ensures AnyNumber(prefix + JOINT + Decimal(n)) == Num(n)
    ensures JointNumber(prefix + JOINT + Decimal(n)) == Num(n)
  {
    var name, head, digits := prefix + JOINT + Decimal(n), prefix + JOINT, Decimal(n);
    ReadsBack(n);
    DigitRunIs(digits, |digits|);
    assert digits[..|digits|] == digits;
    assert name[|head|..] == digits && name[..|head|] == head;
    AnyNumberIsLeftmost(name, |head|);
    NoMatchInPlainPrefix(prefix, digits);
    JointAfterPrefix(prefix, digits);
  }

  lemma NoMatchInPlainPrefix(prefix: string, digits: string)
    requires NoDigits(prefix)
    ensures forall i | 0 <= i < |prefix| :: !MatchesJoint((prefix + JOINT + digits)[i..])
  {
    var name, head := prefix + JOINT + digits, prefix + JOINT;
    forall i | 0 <= i < |prefix| ensures !MatchesJoint(name[i..]) {
      assert name[i..][|JOINT|] == name[i + |JOINT|] == head[i + |JOINT|];
    }
  }

  lemma JointAfterPrefix(prefix: string, digits: string)
    requires forall i | 0 <= i < |prefix| :: !MatchesJoint((prefix + JOINT + digits)[i..])
    requires digits != "" && AllDigits(digits)
    ensures JointNumber(prefix + JOINT + digits) == Num(Value(DigitRun(digits)))
  {
    hide MatchesJoint, JointNumber, DigitRun, Value;
    var name := prefix + JOINT + digits;
    assert name[|prefix|..] == JOINT + digits;
    MatchesAtJoint(digits);
    JointNumberIsLeftmost(name, |prefix|);
  }

  lemma MatchesAtJoint(digits: string)
    requires digits != "" && AllDigits(digits)
    ensures MatchesJoint(JOINT + digits) && (JOINT + digits)[|JOINT|..] == digits
  {
  }

  /** The position of the first digit, or the length of the name. */
  function FirstDigit(name: string): (p: nat)
    ensures p <= |name| && NoDigits(name[..p]) && (p < |name| ==> IsDigit(name[p]))
  {
    if name == "" || IsDigit(name[0]) then 0
    else
      var p := FirstDigit(name[1..]);
      assert forall i | 0 <= i < p + 1 :: !IsDigit(name[i]) by {
        assert forall i | 0 <= i < p :: name[1..][..p][i] == name[i + 1];
      }
      p + 1
  }

  /** The position of the first `joint_` with digits, or the length of the name. */
  function FirstJoint(name: string): (q: nat)
    ensures q <= |name| && (forall i | 0 <= i < q :: !MatchesJoint(name[i..]))
    ensures (q < |name| ==> MatchesJoint(name[q..]))
  {
    if name == "" then 0
    else if MatchesJoint(name) then assert name[0..] == name; 0
    else
      var q := FirstJoint(name[1..]);
      assert name[0..] == name && name[1..][q..] == name[q + 1..];
      assert forall i | 0 <= i < q + 1 :: !MatchesJoint(name[i..]) by {
        forall i | 0 <= i < q + 1 ensures !MatchesJoint(name[i..]) {
          if i > 0 { assert name[1..][i - 1..] == name[i..]; }
        }
      }
      q + 1
  }

  /** Neither extractor finds a number, or both do and the first digits of the name have the same value
      as the digits behind the first `joint_` with digits. */
  predicate SameNumber(name: string) {
    var p, q := FirstDigit(name), FirstJoint(name);
    || (p == |name| && q == |name|)
    || (p < |name| && q < |name| && Value(DigitRun(name[p..])) == Value(DigitRun(name[q..][|JOINT|..])))
  }

  lemma ExtractorsAgreeExactlyWhen(name: string)
    ensures AnyNumber(name) == JointNumber(name) <==> SameNumber(name)
  {
    hide AnyNumber, JointNumber, Value, DigitRun;
    AnyNumberIsLeftmost(name, FirstDigit(name));
    JointNumberIsLeftmost(name, FirstJoint(name));
  }

  /** Behind a prefix with a number of its own one extractor reads the prefix's number and the other
      the joint's, so they agree only if the two numbers are equal. */
  lemma PrefixWithNumberParts(m: nat, n: nat)
    ensures var name := Decimal(m) + "_" + JOINT + Decimal(n);
      && AnyNumber(name) == Num(m) && JointNumber(name) == Num(n)
      && (AnyNumber(name) == JointNumber(name) <==> m == n)
  {
    hide MatchesJoint, JointNumber, AnyNumber, Value, Decimal;
    var prefix, digits := Decimal(m) + "_", Decimal(n);
    ReadsBack(m);
    ReadsBack(n);
    LeadingNumberWins(Decimal(m), "_" + JOINT + digits);
    assert Decimal(m) + ("_" + JOINT + digits) == prefix + JOINT + digits;
    DigitRunIs(digits, |digits|);
    assert digits[..|digits|] == digits;
    NoMatchBeforeUnderscore(Decimal(m), digits);
    JointAfterPrefix(prefix, digits);
  }

  lemma LeadingNumberWins(number: string, rest: string)
    requires number != "" && AllDigits(number) && rest != "" && !IsDigit(rest[0])
    ensures AnyNumber(number + rest) == Num(Value(number))
  {
    var name := number + rest;
    assert name[..|number|] == number;
    DigitRunIs(name, |number|);
  }

  lemma NoMatchBeforeUnderscore(number: string, digits: string)
    requires AllDigits(number)
    ensures forall i | 0 <= i < |number| + 1 :: !MatchesJoint((number + "_" + JOINT + digits)[i..])
  {
    var prefix := number + "_";
    var name := prefix + JOINT + digits;
    forall i | 0 <= i < |prefix| ensures !MatchesJoint(name[i..]) {
      assert name[i..][0] == name[i] == prefix[i] != 'j';
      StartsWithJ(name[i..]);
    }
  }

  lemma StartsWithJ(s: string)
    requires s != "" && s[0] != 'j'
    ensures !MatchesJoint(s)
  {
    assert JOINT[0] == 'j';
  }
}
