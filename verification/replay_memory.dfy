/** The experience-replay memory: `deque(maxlen=2000)` of transitions. */
module ReplayMemory {
  import opened States

  /** The tuple `(state, action, reward, next_state, done)` that `remember` stores. */
  datatype Transition = Transition(state: State, action: nat, reward: real, nextState: State, done: bool)

  /** `maxlen` of the deque. */
  const Capacity: nat := 2000

  /** A deque never holds more than its `maxlen` elements. */
  type Memory = m: seq<Transition> | |m| <= Capacity

  /** The last `n` elements of `s` (all of them when there are fewer). */
  function Newest(s: seq<Transition>, n: nat): (r: seq<Transition>)
    ensures |r| == if |s| <= n then |s| else n
    ensures r == s[|s| - |r|..]
  {
    if |s| <= n then s else s[|s| - n..]
  }

  /** Length of a memory of `n` transitions after one more is remembered. */
  function SizeAfterRemember(n: nat): nat {
    if n < Capacity then n + 1 else Capacity
  }

  /** Length of a memory of `n` transitions after `k` more are remembered. */
  function SizeAfterMany(n: nat, k: nat): nat {
    if n + k < Capacity then n + k else Capacity
  }

  /** Growing in two rounds is growing once by the total. */
  lemma SizeAfterManyAdds(n: nat, a: nat, b: nat)
    ensures SizeAfterMany(SizeAfterMany(n, a), b) == SizeAfterMany(n, a + b)
    ensures SizeAfterRemember(n) == SizeAfterMany(n, 1)
  {
  }

  /** `remember`: append on the right; a full deque first drops its leftmost
      (oldest) element. */
  function Remember(mem: Memory, t: Transition): (r: Memory)
    ensures |r| == SizeAfterRemember(|mem|)
    ensures r[|r| - 1] == t
    ensures r[..|r| - 1] == mem[|mem| + 1 - |r|..]
    ensures |mem| < Capacity ==> r[..|mem|] == mem
  {
    if |mem| < Capacity then mem + [t] else mem[1..] + [t]
  }
  /** If every stored action and the new one are below `n`, so is every
      action after `remember`. */
  lemma RememberKeepsActionsBelow(mem: Memory, t: Transition, n: nat)
    requires forall i :: 0 <= i < |mem| ==> mem[i].action < n
    requires t.action < n
    ensures var r := Remember(mem, t); forall i :: 0 <= i < |r| ==> r[i].action < n
  {
    var r := Remember(mem, t);
    forall i | 0 <= i < |r|
      ensures r[i].action < n
    {
      if i < |r| - 1 {
        assert r[i] == r[..|r| - 1][i];
      }
    }
  }


  /** One `remember` keeps the newest `Capacity` of the old memory plus `t`. */
  lemma RememberIsNewest(mem: Memory, t: Transition)
    ensures Remember(mem, t) == Newest(mem + [t], Capacity)
  {
    if |mem| == Capacity {
      assert (mem + [t])[1..] == mem[1..] + [t];
    }
  }

  /** Remember every transition of `ts`, first to last. */
  function RememberAll(mem: Memory, ts: seq<Transition>): Memory
    decreases |ts|
  {
    if |ts| == 0 then mem else RememberAll(Remember(mem, ts[0]), ts[1..])
  }

  /** Trimming to the newest `n` and then appending keeps the same newest `n`
      as appending to the untrimmed sequence. */
  lemma NewestAppend(s: seq<Transition>, u: seq<Transition>, n: nat)
    ensures Newest(Newest(s, n) + u, n) == Newest(s + u, n)
  {
    if |s| > n {
      var k, x := |s| - n, s + u;
      assert Newest(s, n) + u == x[k..];
      assert x[k..][|x| - k - n..] == x[|x| - n..];
    }
  }



  /** Whatever is remembered, the memory holds exactly the newest `Capacity`
      transitions of everything seen, oldest first. */
  lemma {:induction false} RememberAllKeepsNewest(mem: Memory, ts: seq<Transition>)
    ensures RememberAll(mem, ts) == Newest(mem + ts, Capacity)
    decreases |ts|
  {
    if |ts| == 0 {
      assert mem + ts == mem;
    } else {
      var m1 := Remember(mem, ts[0]);
      calc {
        RememberAll(mem, ts);
        RememberAll(m1, ts[1..]);
        { RememberAllKeepsNewest(m1, ts[1..]); }
        Newest(m1 + ts[1..], Capacity);
        { RememberIsNewest(mem, ts[0]); }
        Newest(Newest(mem + [ts[0]], Capacity) + ts[1..], Capacity);
        { NewestAppend(mem + [ts[0]], ts[1..], Capacity); }
        Newest(mem + [ts[0]] + ts[1..], Capacity);
        { assert mem + [ts[0]] + ts[1..] == mem + ts; }
        Newest(mem + ts, Capacity);
      }
    }
  }

  /** Remembering `Capacity + k` transitions into an empty memory leaves a full
      memory from which exactly the first `k` have been evicted. */
  lemma FifoEviction(ts: seq<Transition>, k: nat)
    requires |ts| == Capacity + k
    ensures |RememberAll([], ts)| == Capacity
    ensures RememberAll([], ts) == ts[k..]
  {
    RememberAllKeepsNewest([], ts);
    assert [] + ts == ts;
  }
}
