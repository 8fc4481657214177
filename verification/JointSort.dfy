/** The stable sort by joint number that both bridges apply: `sorted(range(n), key=...)`. */
module JointSort {
  import opened JointNames

  predicate Less(a: Key, b: Key) {
    a.Num? && (b.Inf? || a.n < b.n)
  }

  /** Index `i` comes before index `j`: by key, and by input order among equal keys. */
  predicate Before(keys: seq<Key>, i: nat, j: nat)
    requires i < |keys| && j < |keys|
  {
    Less(keys[i], keys[j]) || (keys[i] == keys[j] && i < j)
  }

  ghost predicate Indices(order: seq<nat>, n: nat) {
    forall k | 0 <= k < |order| :: order[k] < n
  }

  ghost predicate Ordered(keys: seq<Key>, order: seq<nat>)
    requires Indices(order, |keys|)
  {
    forall a, b | 0 <= a < b < |order| :: Before(keys, order[a], order[b])
  }

  /** A stable sorting permutation of the input positions. */
  ghost predicate IsStableOrder(keys: seq<Key>, order: seq<nat>) {
    && |order| == |keys| && Indices(order, |keys|) && Ordered(keys, order)
    && forall i: nat | i < |keys| :: i in order
  }

  /** `i` placed behind every index of `order` whose key is not larger. */
  function Insert(keys: seq<Key>, order: seq<nat>, i: nat): (r: seq<nat>)
    requires i < |keys| && Indices(order, |keys|)
    ensures |r| == |order| + 1 && Indices(r, |keys|)
    ensures forall x: nat :: x in r <==> x in order || x == i
  {
    if order == [] then [i]
    else if Less(keys[i], keys[order[0]]) then [i] + order
    else [order[0]] + Insert(keys, order[1..], i)
  }

  /** The first `n` positions in stable order. */
  function SortPrefix(keys: seq<Key>, n: nat): (r: seq<nat>)
    requires n <= |keys|
    ensures |r| == n && Indices(r, |keys|)
    ensures forall x: nat :: x in r <==> x < n
  {
    if n == 0 then [] else Insert(keys, SortPrefix(keys, n - 1), n - 1)
  }

  function SortedIndices(keys: seq<Key>): (r: seq<nat>)
    ensures |r| == |keys| && Indices(r, |keys|)
  {
    SortPrefix(keys, |keys|)
  }

  lemma {:induction false} InsertKeepsOrder(keys: seq<Key>, order: seq<nat>, i: nat)
    requires i < |keys| && Indices(order, |keys|) && Ordered(keys, order)
    requires forall x | x in order :: x < i
    ensures Ordered(keys, Insert(keys, order, i))
  {
    if order != [] && !Less(keys[i], keys[order[0]]) {
      var rest := Insert(keys, order[1..], i);
      assert order[0] in order && forall x | x in order[1..] :: x in order;
      InsertKeepsOrder(keys, order[1..], i);
      forall b | 0 <= b < |rest| ensures Before(keys, order[0], rest[b]) {
        assert rest[b] in rest;
        if rest[b] != i {
          var k :| 0 <= k < |order[1..]| && order[1..][k] == rest[b];
          assert Before(keys, order[0], order[k + 1]);
        }
      }
    }
  }

  lemma {:induction false} PrefixOrdered(keys: seq<Key>, n: nat)
    requires n <= |keys|
    ensures Ordered(keys, SortPrefix(keys, n))
  {
    if n > 0 {
      PrefixOrdered(keys, n - 1);
      InsertKeepsOrder(keys, SortPrefix(keys, n - 1), n - 1);
    }
  }

  /** The sort yields a stable sorting permutation, ... */
  lemma SortsStably(keys: seq<Key>)
    ensures IsStableOrder(keys, SortedIndices(keys))
  {
    PrefixOrdered(keys, |keys|);
  }

  /** ... the only one there is. */
  lemma StableOrderIsUnique(keys: seq<Key>, order: seq<nat>)
    requires IsStableOrder(keys, order)
    ensures order == SortedIndices(keys)
  {
    SortsStably(keys);
    SameOrder(keys, order, SortedIndices(keys));
  }

  lemma {:induction false} SameOrder(keys: seq<Key>, p: seq<nat>, q: seq<nat>)
    requires |p| == |q| && Indices(p, |keys|) && Indices(q, |keys|)
    requires Ordered(keys, p) && Ordered(keys, q)
    requires forall x: nat :: x in p <==> x in q
    ensures p == q
  {
    if p != [] {
      assert p[0] in q && q[0] in p;
      assert p[0] == q[0];
      assert p[0] !in p[1..] && q[0] !in q[1..];
      forall x: nat ensures x in p[1..] <==> x in q[1..] {
        assert x in p[1..] <==> x in p && x != p[0];
        assert x in q[1..] <==> x in q && x != q[0];
      }
      SameOrder(keys, p[1..], q[1..]);
    }
  }

  /** Joints without a number come last, in input order. */
  lemma UnnumberedComeLast(keys: seq<Key>, a: nat, b: nat)
    requires a < b < |keys|
    ensures var order := SortedIndices(keys);
      keys[order[a]] == Inf ==> keys[order[b]] == Inf && order[a] < order[b]
  {
    SortsStably(keys);
    assert Before(keys, SortedIndices(keys)[a], SortedIndices(keys)[b]);
  }

  /** In plain numbers: of two joints with a number the smaller one comes first, and of equal ones the
      one that came first in the input. */
  lemma NumbersAscend(keys: seq<Key>, a: nat, b: nat)
    requires a < b < |keys|
    ensures var order := SortedIndices(keys);
            var i, j := order[a], order[b];
      keys[i].Num? && keys[j].Num? ==> keys[i].n <= keys[j].n && (keys[i].n == keys[j].n ==> i < j)
  {
    SortsStably(keys);
    assert Before(keys, SortedIndices(keys)[a], SortedIndices(keys)[b]);
  }

  /** Numbers that climb strictly below `n` can only be 0, 1, 2, and so on. */
  lemma {:induction false} ClimbsByOne(f: seq<nat>, k: nat)
    requires forall a, b | 0 <= a < b < |f| :: f[a] < f[b]
    requires forall a | 0 <= a < |f| :: f[a] < |f|
    requires k < |f|
    ensures f[k] == k
  {
    AtLeast(f, k);
    AtMost(f, k);
  }

  lemma {:induction false} AtLeast(f: seq<nat>, k: nat)
    requires k < |f| && forall a, b | 0 <= a < b < |f| :: f[a] < f[b]
    ensures f[k] >= k
  {
    if k > 0 { AtLeast(f, k - 1); }
  }

  lemma {:induction false} AtMost(f: seq<nat>, k: nat)
    requires k < |f| && (forall a, b | 0 <= a < b < |f| :: f[a] < f[b]) && forall a | 0 <= a < |f| :: f[a] < |f|
    ensures f[k] <= k
    decreases |f| - k
  {
    if k + 1 < |f| { AtMost(f, k + 1); }
  }

  /** If the keys are 1 to n in any arrangement, place k of the order is the position of key k + 1. */
  lemma OrderOfArrangement(keys: seq<Key>, k: nat)
    requires k < |keys|
    requires forall i | 0 <= i < |keys| :: keys[i].Num? && 1 <= keys[i].n <= |keys|
    requires forall i, j | 0 <= i < j < |keys| :: keys[i] != keys[j]
    ensures keys[SortedIndices(keys)[k]] == Num(k + 1)
  {
    var order := SortedIndices(keys);
    SortsStably(keys);
    var f := seq(|keys|, a requires 0 <= a < |keys| => (keys[order[a]].n - 1) as nat);
    forall a, b | 0 <= a < b < |f| ensures f[a] < f[b] {
      NumbersAscend(keys, a, b);
      assert Before(keys, order[a], order[b]);
    }
    ClimbsByOne(f, k);
  }
}
