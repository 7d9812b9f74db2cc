/** How often a value occurs in a pipe, for counting arguments. */
module Occurrences {

  ghost function N(q: seq<nat>, f: nat): nat { multiset(q)[f] }

  lemma Split<T>(q: seq<T>)
    requires q != []
    ensures multiset(q) == multiset{q[0]} + multiset(q[1..])
  {
    assert q == [q[0]] + q[1..];
  }

  lemma PopN(q: seq<nat>, f: nat)
    requires q != []
    ensures N(q, f) == N(q[1..], f) + N([q[0]], f)
  {
    Split(q);
  }

  lemma PushN(q: seq<nat>, x: nat, f: nat)
    ensures N(q + [x], f) == N(q, f) + N([x], f)
    ensures N([x] + q, f) == N(q, f) + N([x], f)
    ensures N([x], f) == if x == f then 1 else 0
    ensures N([], f) == 0
  {
  }
}
