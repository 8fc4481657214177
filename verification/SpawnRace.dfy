/** How the arc, sine and spline nodes start their motion threads: the keyboard thread tests the running
    flag and spawns, and the spawned thread raises the flag. In the spline node the thread tests the
    flag once more first (`guarded`), but the test and the write are two steps. */
module SpawnRace {

  datatype Pc = Spawned | Checked | Active | Over

  datatype Node = Node(flag: bool, threads: seq<Pc>)

  /** The space key, or the next statement of a thread. */
  datatype Action = Space | Step(t: nat)

  function Next(guarded: bool, n: Node, a: Action): Node {
    match a
    case Space => if n.flag then n else n.(threads := n.threads + [Spawned])
    case Step(t) =>
      if t >= |n.threads| then n
      else match n.threads[t]
        case Spawned =>
          if guarded && n.flag then n.(threads := n.threads[t := Over]) else n.(threads := n.threads[t := Checked])
        case Checked => Node(true, n.threads[t := Active])
        case Active => Node(false, n.threads[t := Over])
        case Over => n
  }

  function RunFrom(guarded: bool, n: Node, acts: seq<Action>): Node
    decreases |acts|
  {
    if acts == [] then n else RunFrom(guarded, Next(guarded, n, acts[0]), acts[1..])
  }

  const START := Node(false, [])

  /** Spawned, and not yet past raising the flag. */
  predicate Pending(pc: Pc) {
    pc.Spawned? || pc.Checked?
  }

  ghost predicate SomePending(n: Node) {
    exists t :: 0 <= t < |n.threads| && Pending(n.threads[t])
  }

  /** No space key comes between a spawn and the flag write of the spawned thread. */
  ghost predicate KeysWait(guarded: bool, n: Node, acts: seq<Action>)
    decreases |acts|
  {
    acts != [] ==> (acts[0].Space? ==> !SomePending(n)) && KeysWait(guarded, Next(guarded, n, acts[0]), acts[1..])
  }

  /** At most one thread is pending or active, and the flag is up exactly while one is active. */
  ghost predicate Exclusive(n: Node) {
    && (forall t, u | 0 <= t < u < |n.threads| :: n.threads[t] == Over || n.threads[u] == Over)
    && (n.flag <==> exists t :: 0 <= t < |n.threads| && n.threads[t] == Active)
  }

  ghost predicate TwoActive(n: Node) {
    exists t, u :: 0 <= t < u < |n.threads| && n.threads[t] == n.threads[u] == Active
  }

  predicate NoKeys(acts: seq<Action>) {
    forall i | 0 <= i < |acts| :: !acts[i].Space?
  }

  lemma NextKeeps(guarded: bool, n: Node, a: Action)
    requires Exclusive(n) && (a.Space? ==> !SomePending(n))
    ensures Exclusive(Next(guarded, n, a))
  {
    var n' := Next(guarded, n, a);
    if a.Space? {
      if !n.flag {
        forall t | 0 <= t < |n.threads| ensures n.threads[t] == Over {
          assert !Pending(n.threads[t]);
        }
      }
    } else if a.t < |n.threads| {
      forall t | 0 <= t < |n.threads| && t != a.t ensures n'.threads[t] == n.threads[t] {}
      if n.threads[a.t] == Checked { assert n'.threads[a.t] == Active; }
      if n.flag && n.threads[a.t] != Active {
        var t :| 0 <= t < |n.threads| && n.threads[t] == Active;
        assert n'.threads[t] == Active || n'.threads[t] == n.threads[t];
      }
    }
  }

  lemma {:induction false} RunKeeps(guarded: bool, n: Node, acts: seq<Action>)
    requires Exclusive(n) && KeysWait(guarded, n, acts)
    ensures Exclusive(RunFrom(guarded, n, acts))
    decreases |acts|
  {
    if acts != [] {
      NextKeeps(guarded, n, acts[0]);
      RunKeeps(guarded, Next(guarded, n, acts[0]), acts[1..]);
    }
  }

  /** If every space key waits for the flag write of the thread before it, at most one motion thread is
      under way in every interleaving, with or without the second test. */
  lemma OneThreadIfKeysWait(guarded: bool, acts: seq<Action>, t: nat, u: nat)
    requires KeysWait(guarded, START, acts)
    requires var n := RunFrom(guarded, START, acts); t < u < |n.threads|
    ensures var n := RunFrom(guarded, START, acts); n.threads[t] == Over || n.threads[u] == Over
  {
    RunKeeps(guarded, START, acts);
  }

  /** Otherwise not: a space key that is accepted while another thread is pending spawns a second thread,
      and from there two can become active. The spline node's second test does not help, since both
      threads can pass it before either raises the flag. */
  lemma EarlyKeyMakesTwo(guarded: bool, n: Node, t: nat) returns (cont: seq<Action>)
    requires !n.flag && t < |n.threads| && Pending(n.threads[t])
    ensures NoKeys(cont)
    ensures var m := RunFrom(guarded, Next(guarded, n, Space), cont);
      |m.threads| == |n.threads| + 1 && m.threads[t] == m.threads[|n.threads|] == Active
  {
    var u := |n.threads|;
    var z := Next(guarded, n, Space);
    cont := [];
    assert RunFrom(guarded, z, cont) == z;
    hide RunFrom;
    if n.threads[t] == Spawned { cont := Take(guarded, z, cont, Step(t)); }
    assert RunFrom(guarded, z, cont) == Node(false, n.threads[t := Checked] + [Spawned]);
    cont := Take(guarded, z, cont, Step(u));
    assert RunFrom(guarded, z, cont) == Node(false, n.threads[t := Checked] + [Checked]);
    cont := Take(guarded, z, cont, Step(t));
    assert RunFrom(guarded, z, cont) == Node(true, n.threads[t := Active] + [Checked]);
    cont := Take(guarded, z, cont, Step(u));
  }

  lemma Take(guarded: bool, n: Node, acts: seq<Action>, a: Action) returns (acts': seq<Action>)
    ensures acts' == acts + [a]
    ensures RunFrom(guarded, n, acts') == Next(guarded, RunFrom(guarded, n, acts), a)
  {
    acts' := acts + [a];
    RunConcat(guarded, n, acts, [a]);
    var m := RunFrom(guarded, n, acts);
    assert RunFrom(guarded, m, [a]) == RunFrom(guarded, Next(guarded, m, a), []);
  }

  lemma {:induction false} RunConcat(guarded: bool, n: Node, first: seq<Action>, second: seq<Action>)
    ensures RunFrom(guarded, n, first + second) == RunFrom(guarded, RunFrom(guarded, n, first), second)
    decreases |first|
  {
    if first == [] {
      assert first + second == second;
    } else {
      assert (first + second)[1..] == first[1..] + second;
      RunConcat(guarded, Next(guarded, n, first[0]), first[1..], second);
    }
  }

  /** Two space keys in a row are enough. */
  lemma TwoKeysMakeTwo(guarded: bool) returns (acts: seq<Action>)
    ensures var n := RunFrom(guarded, START, acts); |n.threads| == 2 && n.threads[0] == n.threads[1] == Active
  {
    var n := Next(guarded, START, Space);
    var cont := EarlyKeyMakesTwo(guarded, n, 0);
    acts := [Space, Space] + cont;
    assert acts[1..] == [Space] + cont && acts[1..][1..] == cont;
    assert RunFrom(guarded, START, acts) == RunFrom(guarded, n, acts[1..]);
    assert RunFrom(guarded, n, acts[1..]) == RunFrom(guarded, Next(guarded, n, Space), cont);
  }

  /** From some point of the run `acts` on, steps alone can make two threads active. */
  ghost predicate CanMakeTwo(guarded: bool, n: Node, acts: seq<Action>, k: nat, cont: seq<Action>)
    requires k <= |acts|
  {
    NoKeys(cont) && TwoActive(RunFrom(guarded, RunFrom(guarded, n, acts[..k]), cont))
  }

  /** A run in which keys wait never comes to a point from which two threads can become active. */
  lemma {:induction false} WaitingIsSafe(guarded: bool, n: Node, acts: seq<Action>, k: nat, cont: seq<Action>)
    requires Exclusive(n) && KeysWait(guarded, n, acts) && k <= |acts|
    ensures !CanMakeTwo(guarded, n, acts, k, cont)
    decreases k
  {
    if k == 0 {
      assert acts[..0] == [];
      if NoKeys(cont) {
        StepsWait(guarded, n, cont);
        RunKeeps(guarded, n, cont);
      }
    } else {
      NextKeeps(guarded, n, acts[0]);
      WaitingIsSafe(guarded, Next(guarded, n, acts[0]), acts[1..], k - 1, cont);
      assert acts[..k][1..] == acts[1..][..k - 1];
    }
  }

  lemma {:induction false} StepsWait(guarded: bool, n: Node, cont: seq<Action>)
    requires NoKeys(cont)
    ensures KeysWait(guarded, n, cont)
    decreases |cont|
  {
    if cont != [] { StepsWait(guarded, Next(guarded, n, cont[0]), cont[1..]); }
  }

  /** The first key that does not wait finds the flag down, and two threads can become active after it. */
  lemma {:induction false} ImpatienceIsNot(guarded: bool, n: Node, acts: seq<Action>)
    returns (k: nat, cont: seq<Action>)
    requires Exclusive(n) && !KeysWait(guarded, n, acts)
    ensures k <= |acts| && CanMakeTwo(guarded, n, acts, k, cont)
    decreases |acts|
  {
    if acts[0].Space? && SomePending(n) {
      var t :| 0 <= t < |n.threads| && Pending(n.threads[t]);
      cont := EarlyKeyMakesTwo(guarded, n, t);
      k := 1;
      assert acts[..1] == [Space] && acts[..1][1..] == [];
      assert RunFrom(guarded, n, acts[..1]) == Next(guarded, n, Space);
    } else {
      NextKeeps(guarded, n, acts[0]);
      k, cont := ImpatienceIsNot(guarded, Next(guarded, n, acts[0]), acts[1..]);
      assert acts[..k + 1][1..] == acts[1..][..k];
      k := k + 1;
    }
  }

  /** In a run the keys wait if and only if at no point of it two threads can become active without a
      further key, with or without the second test. */
  lemma KeysWaitExactlyWhenSafe(guarded: bool, acts: seq<Action>)
    ensures KeysWait(guarded, START, acts) <==>
      forall k: nat, cont | k <= |acts| :: !CanMakeTwo(guarded, START, acts, k, cont)
  {
    if KeysWait(guarded, START, acts) {
      forall k: nat, cont | k <= |acts| ensures !CanMakeTwo(guarded, START, acts, k, cont) {
        WaitingIsSafe(guarded, START, acts, k, cont);
      }
    } else {
      var k, cont := ImpatienceIsNot(guarded, START, acts);
    }
  }

  /** What the second test is good for: a thread that comes to it after another has raised the flag ends
      without a motion, while without it the thread becomes active too. */
  lemma SecondTestStopsLatecomer(n: Node, t: nat)
    requires n.flag && t < |n.threads| && n.threads[t] == Spawned
    ensures Next(true, n, Step(t)) == n.(threads := n.threads[t := Over])
    ensures Next(false, Next(false, n, Step(t)), Step(t)) == n.(threads := n.threads[t := Active])
  {
    assert n.threads[t := Checked][t := Active] == n.threads[t := Active];
  }
}
