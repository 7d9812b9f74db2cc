/** The free list of the matrix-multiply farm: ten links in an array, chained by index from head to -1. */
module FreeList {

  const FREE_LIST_SIZE := 10

  /** head and next spell out the given slots, in order, and end in -1. */
  ghost predicate IsChain(next: seq<int>, head: int, chain: seq<nat>)
    decreases chain
  {
    if chain == [] then head == -1
    else head == chain[0] < |next| && IsChain(next, next[head], chain[1..])
  }

  /** Writing the link of a slot outside the chain leaves the chain as it is. */
  lemma {:induction false} ChainFrame(next: seq<int>, head: int, chain: seq<nat>, f: nat, n: int)
    requires IsChain(next, head, chain) && f !in chain && f < |next|
    ensures IsChain(next[f := n], head, chain)
    decreases chain
  {
    if chain != [] {
      ChainFrame(next, next[head], chain[1..], f, n);
    }
  }

  /** All slots in order. */
  ghost predicate AllSlots(chain: seq<nat>) {
    |chain| == FREE_LIST_SIZE && forall k :: 0 <= k < FREE_LIST_SIZE ==> chain[k] == k
  }

  /** The links free_queue_manager sets up at the start. */
  ghost predicate InitialLinks(next: seq<int>) {
    && |next| == FREE_LIST_SIZE && next[FREE_LIST_SIZE - 1] == -1
    && forall k :: 0 <= k < FREE_LIST_SIZE - 1 ==> next[k] == k + 1
  }

  lemma {:induction false} InitialChain(next: seq<int>, chain: seq<nat>, i: nat)
    requires InitialLinks(next) && AllSlots(chain) && i < FREE_LIST_SIZE
    ensures IsChain(next, i, chain[i..])
    decreases FREE_LIST_SIZE - i
  {
    if i + 1 < FREE_LIST_SIZE {
      InitialChain(next, chain, i + 1);
      assert chain[i..][1..] == chain[i + 1..];
    }
  }

  /** A chain never repeats a slot: following it always ends. */
  lemma {:induction false} ChainDistinct(next: seq<int>, head: int, chain: seq<nat>)
    requires IsChain(next, head, chain)
    ensures forall i, j :: 0 <= i < j < |chain| ==> chain[i] != chain[j]
  {
    forall i, j | 0 <= i < j < |chain| ensures chain[i] != chain[j] {
      if chain[i] == chain[j] {
        ChainFrom(next, head, chain, i);
        ChainFrom(next, head, chain, j);
        SameHeadSameChain(next, chain[i], chain[i..], chain[j..]);
      }
    }
  }

  lemma {:induction false} ChainFrom(next: seq<int>, head: int, chain: seq<nat>, i: nat)
    requires IsChain(next, head, chain) && i < |chain|
    ensures IsChain(next, chain[i], chain[i..])
    decreases chain
  {
    if i > 0 {
      ChainFrom(next, next[head], chain[1..], i - 1);
      assert chain[1..][i - 1..] == chain[i..];
    } else {
      assert chain[0..] == chain;
    }
  }

  /** The chain from a head is unique. */
  lemma {:induction false} SameHeadSameChain(next: seq<int>, head: int, c1: seq<nat>, c2: seq<nat>)
    requires IsChain(next, head, c1) && IsChain(next, head, c2)
    ensures c1 == c2
    decreases c1
  {
    if c1 != [] && c2 != [] {
      SameHeadSameChain(next, next[head], c1[1..], c2[1..]);
      assert c1 == [c1[0]] + c1[1..] && c2 == [c2[0]] + c2[1..];
    }
  }

  /** The manager's two globals, as it updates them. */
  class Manager {
    const next: array<int>
    var head: int
    // The free slots from head on.
    ghost var chain: seq<nat>

    ghost predicate Valid()
      reads this, next
    {
      next.Length == FREE_LIST_SIZE && IsChain(next[..], head, chain)
    }

    constructor ()
      ensures Valid() && fresh(next)
      ensures AllSlots(chain)
    {
      next := new int[FREE_LIST_SIZE];
      head := -1;
      chain := [];
      new;
      var i := 0;
      while i < FREE_LIST_SIZE - 1
        invariant 0 <= i <= FREE_LIST_SIZE - 1
        invariant forall k :: 0 <= k < i ==> next[k] == k + 1
      {
        next[i] := i + 1;
        i := i + 1;
      }
      next[FREE_LIST_SIZE - 1] := -1;
      head := 0;
      chain := seq(FREE_LIST_SIZE, k => k);
      InitialChain(next[..], chain, 0);
      assert chain[0..] == chain;
    }

    /** FREE_LIST_GET: the first free slot, or -1. */
    method Get() returns (ret: int)
      requires Valid()
      modifies this
      ensures Valid()
      ensures if old(chain) == [] then ret == -1 && chain == []
              else ret == old(chain)[0] && chain == old(chain)[1..] && ret !in chain
    {
      ret := head;
      if head != -1 {
        ChainDistinct(next[..], head, chain);
        head := next[head];
        chain := chain[1..];
      }
    }

    /** FREE_LIST_PUT of a slot that is not free. */
    method Put(f: nat)
      requires Valid() && f < FREE_LIST_SIZE && f !in chain
      modifies this, next
      ensures Valid() && chain == [f] + old(chain)
    {
      ChainFrame(next[..], head, chain, f, head);
      next[f] := head;
      head := f;
      chain := [f] + chain;
    }
  }
}
