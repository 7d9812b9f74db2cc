/** The circular buffer of the pipe handler: first-in-first-out, last-in-first-out, and signal mode. */
module PipeBuffer {

  datatype Option<T> = None | Some(value: T)

  datatype Mode = Fifo | Lifo | Signal

  // ----- The macros, on values -----

  /** PipeRec. */
  datatype Rec<T> = Rec(mode: Mode, buffer: seq<T>, readPointer: nat, writePointer: nat, numberOfEntries: nat) {
    predicate WellFormed() {
      readPointer < |buffer| && writePointer < |buffer| && numberOfEntries <= |buffer|
    }
  }

  function Incr(x: nat, depth: nat): nat
    requires x < depth
  {
    if x == depth - 1 then 0 else x + 1
  }

  function Decr(x: nat, depth: nat): nat
    requires x < depth
  {
    if x == 0 then depth - 1 else x - 1
  }

  /** PUSH. */
  function Pushed<T>(p: Rec<T>, x: T): (r: Rec<T>)
    requires p.WellFormed()
    ensures r.WellFormed() && r.mode == p.mode && |r.buffer| == |p.buffer|
  {
    if p.mode == Signal then p.(buffer := p.buffer[0 := x])
    else if p.numberOfEntries < |p.buffer| then
      p.(numberOfEntries := p.numberOfEntries + 1, buffer := p.buffer[p.writePointer := x],
         readPointer := if p.mode == Lifo then p.writePointer else p.readPointer,
         writePointer := Incr(p.writePointer, |p.buffer|))
    else p
  }

  /** POP, and what it stores through its pointer. */
  function Popped<T>(p: Rec<T>): (r: Rec<T>)
    requires p.WellFormed()
    ensures r.WellFormed() && r.mode == p.mode && |r.buffer| == |p.buffer|
  {
    if p.mode == Signal || p.numberOfEntries == 0 then p
    else if p.mode == Lifo then
      p.(writePointer := p.readPointer, readPointer := Decr(p.readPointer, |p.buffer|),
         numberOfEntries := p.numberOfEntries - 1)
    else
      p.(readPointer := Incr(p.readPointer, |p.buffer|), numberOfEntries := p.numberOfEntries - 1)
  }

  function ValuePopped<T>(p: Rec<T>): Option<T>
    requires p.WellFormed()
  {
    if p.mode == Signal then Some(p.buffer[0])
    else if p.numberOfEntries > 0 then Some(p.buffer[p.readPointer])
    else None
  }

  /** POPANDRESTORE: the write pointer is set to the read pointer, not back to what it was. */
  function Restored<T>(p: Rec<T>): (r: Rec<T>)
    requires p.WellFormed()
    ensures r.WellFormed() && r.mode == p.mode && |r.buffer| == |p.buffer|
  {
    p.(writePointer := p.readPointer)
  }

  // ----- The entries in the buffer -----

  /** Where an index that has run past the end continues. */
  function Slot(i: nat, depth: nat): int
  {
    if i < depth then i else i - depth
  }

  /** n entries of the circular buffer b from place start on. */
  function Window<T>(b: seq<T>, start: nat, n: nat): (w: seq<T>)
    requires start < |b| && n <= |b|
    ensures |w| == n
  {
    seq(n, i requires 0 <= i < n => if start + i < |b| then b[start + i] else b[start + i - |b|])
  }

  lemma WindowEnds<T>(b: seq<T>, start: nat, n: nat)
    requires start < |b| && n <= |b|
    ensures n > 0 ==> Window(b, start, n)[0] == b[start]
    ensures n > 0 ==> Window(b, start, n)[n - 1] == b[if start + n - 1 < |b| then start + n - 1 else start + n - 1 - |b|]
    ensures n > 0 ==> Window(b, start, n)[1..] == Window(b, if start + 1 < |b| then start + 1 else 0, n - 1)
    ensures n > 0 ==> Window(b, start, n)[..n - 1] == Window(b, start, n - 1)
    ensures n < |b| ==>
              forall x: T :: Window(b[(if start + n < |b| then start + n else start + n - |b|) := x], start, n + 1)
                             == Window(b, start, n) + [x]
  {
  }

  /** The pointers fit a queue, or a stack with its bottom at base. The write pointer of a full stack does not matter,
      nor does the read pointer of an empty one. */
  predicate InOrder<T>(p: Rec<T>, base: nat) {
    var depth, n := |p.buffer|, p.numberOfEntries;
    && p.WellFormed() && base < depth
    && (p.mode == Fifo ==> p.writePointer == Slot(p.readPointer + n, depth))
    && (p.mode == Lifo && n < depth ==> p.writePointer == Slot(base + n, depth))
    && (p.mode == Lifo && n > 0 ==> p.readPointer == Slot(base + n - 1, depth))
  }

  /** The entries, oldest first. A signal always has the one value last written. */
  function Entries<T>(p: Rec<T>, base: nat): (c: seq<T>)
    requires InOrder(p, base)
    ensures |c| == if p.mode == Signal then 1 else p.numberOfEntries
  {
    match p.mode
    case Fifo => Window(p.buffer, p.readPointer, p.numberOfEntries)
    case Lifo => Window(p.buffer, base, p.numberOfEntries)
    case Signal => [p.buffer[0]]
  }

  lemma PushRefines<T>(p: Rec<T>, base: nat, x: T)
    requires InOrder(p, base)
    ensures InOrder(Pushed(p, x), base)
    ensures Entries(Pushed(p, x), base) == AfterPush(p.mode, |p.buffer|, Entries(p, base), x)
  {
    WindowEnds(p.buffer, if p.mode == Fifo then p.readPointer else base, p.numberOfEntries);
    hide Window;
  }

  lemma QueuePops<T>(p: Rec<T>, base: nat)
    requires InOrder(p, base) && p.mode == Fifo
    ensures InOrder(Popped(p), base)
    ensures Entries(Popped(p), base) == AfterPop(p.mode, Entries(p, base))
    ensures ValuePopped(p) == PopResult(p.mode, Entries(p, base))
  {
    WindowEnds(p.buffer, p.readPointer, p.numberOfEntries);
    hide Window;
  }

  lemma StackStaysInOrder<T>(p: Rec<T>, base: nat)
    requires InOrder(p, base) && p.mode == Lifo
    ensures InOrder(Popped(p), base)
  {
  }

  lemma StackPops<T>(p: Rec<T>, base: nat)
    requires InOrder(p, base) && p.mode == Lifo
    ensures InOrder(Popped(p), base)
    ensures Entries(Popped(p), base) == AfterPop(p.mode, Entries(p, base))
    ensures ValuePopped(p) == PopResult(p.mode, Entries(p, base))
  {
    StackStaysInOrder(p, base);
    WindowEnds(p.buffer, base, p.numberOfEntries);
    hide Window;
  }

  lemma PopRefines<T>(p: Rec<T>, base: nat)
    requires InOrder(p, base)
    ensures InOrder(Popped(p), base)
    ensures Entries(Popped(p), base) == AfterPop(p.mode, Entries(p, base))
    ensures ValuePopped(p) == PopResult(p.mode, Entries(p, base))
  {
    if p.mode == Fifo {
      hide *;
      QueuePops(p, base);
    } else if p.mode == Lifo {
      hide *;
      StackPops(p, base);
    } else {
      hide Window;
    }
  }

  /** Where the bottom of a stack is after POPANDRESTORE: an empty one starts again at its read pointer. */
  function NewBase<T>(p: Rec<T>, base: nat): nat {
    if p.numberOfEntries == 0 then p.readPointer else base
  }

  /** The pointers fit again exactly when the pipe was empty or full, and the entries are then as before. */
  lemma RestoredInOrder<T>(p: Rec<T>, base: nat)
    requires InOrder(p, base)
    ensures (exists b :: InOrder(Restored(p), b))
            <==> p.mode == Signal || p.numberOfEntries == 0 || p.numberOfEntries == |p.buffer|
    ensures p.mode == Signal || p.numberOfEntries == 0 || p.numberOfEntries == |p.buffer| ==>
              InOrder(Restored(p), NewBase(p, base)) && Entries(Restored(p), NewBase(p, base)) == Entries(p, base)
  {
    var r := Restored(p);
    if p.mode == Signal || p.numberOfEntries == 0 || p.numberOfEntries == |p.buffer| {
      assert InOrder(r, NewBase(p, base));
    }
  }

  // ----- The macros on the shared record -----

  class Pipe<T> {
    const mode: Mode
    const depth: nat
    const buffer: array<T>
    var readPointer: nat
    var writePointer: nat
    var numberOfEntries: nat
    // The place of the bottom entry of a stack.
    ghost var base: nat

    ghost function View(): Rec<T>
      reads this, buffer
    {
      Rec(mode, buffer[..], readPointer, writePointer, numberOfEntries)
    }

    ghost predicate Valid()
      reads this, buffer
    {
      depth == buffer.Length && InOrder(View(), base)
    }

    ghost function Contents(): (c: seq<T>)
      reads this, buffer
      requires Valid()
      ensures |c| == if mode == Signal then 1 else numberOfEntries
    {
      Entries(View(), base)
    }

    /** register_pipe, for a pipe that is not there yet; a depth that is not positive becomes 1. */
    constructor (pipeDepth: int, pipeMode: Mode, zero: T)
      ensures Valid() && fresh(buffer) && mode == pipeMode && depth == if pipeDepth <= 0 then 1 else pipeDepth
      ensures Contents() == if mode == Signal then [zero] else []
    {
      mode := pipeMode;
      depth := if pipeDepth <= 0 then 1 else pipeDepth;
      buffer := new T[if pipeDepth <= 0 then 1 else pipeDepth](_ => zero);
      readPointer, writePointer, numberOfEntries, base := 0, 0, 0, 0;
    }

    /** POP; nothing is stored through the pointer when the pipe is empty. */
    method Pop() returns (x: Option<T>)
      requires Valid()
      modifies this`readPointer, this`writePointer, this`numberOfEntries
      ensures Valid() && View() == Popped(old(View()))
      ensures x == PopResult(mode, old(Contents())) && Contents() == AfterPop(mode, old(Contents()))
    {
      PopRefines(View(), base);
      hide Entries, InOrder, PopResult, AfterPop;
      x := None;
      if mode == Signal {
        x := Some(buffer[0]);
      } else if numberOfEntries > 0 {
        x := Some(buffer[readPointer]);
        if mode != Lifo {
          readPointer := Incr(readPointer, depth);
        } else {
          writePointer := readPointer;
          readPointer := Decr(readPointer, depth);
        }
        numberOfEntries := numberOfEntries - 1;
      }
    }

    /** PUSH; a full pipe stays as it is. */
    method Push(x: T)
      requires Valid()
      modifies this`readPointer, this`writePointer, this`numberOfEntries, buffer
      ensures Valid() && View() == Pushed(old(View()), x)
      ensures Contents() == AfterPush(mode, depth, old(Contents()), x)
    {
      PushRefines(View(), base, x);
      hide Entries, InOrder, AfterPush;
      if mode == Signal {
        buffer[0] := x;
      } else if numberOfEntries < depth {
        numberOfEntries := numberOfEntries + 1;
        buffer[writePointer] := x;
        if mode == Lifo {
          readPointer := writePointer;
        }
        writePointer := Incr(writePointer, depth);
      }
    }

    /** POPANDRESTORE. The pipe is a queue or a stack again, with the entries it had, exactly when it was empty or
        full; nothing is said otherwise of what later operations do. */
    method PopAndRestore() returns (x: Option<T>)
      requires Valid()
      modifies this
      ensures x == PopResult(mode, old(Contents())) && View() == Restored(old(View()))
      ensures mode != Signal ==> (Valid() <==> old(numberOfEntries) == 0 || old(numberOfEntries) == depth)
      ensures mode == Signal ==> Valid()
      ensures Valid() ==> Contents() == old(Contents())
    {
      ghost var p := View();
      RestoredInOrder(p, base);
      ghost var bottom := NewBase(p, base);
      var oldRp, oldNe := readPointer, numberOfEntries;
      x := Pop();
      readPointer := oldRp;
      writePointer := oldRp;
      numberOfEntries := oldNe;
      base := bottom;
      assert View() == Restored(p);
      hide Entries, InOrder, PopResult, AfterPop, Restored, Popped;
    }

    /** Any sequence of pushes and pops. */
    method Run(ops: seq<Op<T>>) returns (popped: seq<Option<T>>)
      requires Valid()
      modifies this, buffer
      ensures Valid()
      ensures (Contents(), popped) == RunSpec(mode, depth, old(Contents()), ops)
    {
      hide Entries, InOrder;
      ghost var c0 := Contents();
      popped := [];
      for n := 0 to |ops|
        invariant Valid()
        invariant (Contents(), popped) == RunSpec(mode, depth, c0, ops[..n])
      {
        assert ops[..n + 1][..n] == ops[..n];
        match ops[n] {
          case DoPop =>
            var x := Pop();
            popped := popped + [x];
          case DoPush(x) =>
            Push(x);
        }
      }
      assert ops[..|ops|] == ops;
    }
  }

  // ----- The bounded queue and the bounded stack -----

  datatype Op<T> = DoPush(x: T) | DoPop

  function PopResult<T>(mode: Mode, c: seq<T>): Option<T> {
    if c == [] then None else if mode == Fifo then Some(c[0]) else Some(c[|c| - 1])
  }

  function AfterPop<T>(mode: Mode, c: seq<T>): seq<T> {
    if c == [] || mode == Signal then c else if mode == Fifo then c[1..] else c[..|c| - 1]
  }

  function AfterPush<T>(mode: Mode, depth: nat, c: seq<T>, x: T): seq<T> {
    if mode == Signal then [x] else if |c| < depth then c + [x] else c
  }

  function RunSpec<T>(mode: Mode, depth: nat, c: seq<T>, ops: seq<Op<T>>): (seq<T>, seq<Option<T>>) {
    if ops == [] then (c, [])
    else
      var before := RunSpec(mode, depth, c, ops[..|ops| - 1]);
      match ops[|ops| - 1]
      case DoPop => (AfterPop(mode, before.0), before.1 + [PopResult(mode, before.0)])
      case DoPush(x) => (AfterPush(mode, depth, before.0, x), before.1)
  }

  /** The values that came out, and those that were taken in, in their order. */
  function Values<T>(popped: seq<Option<T>>): seq<T> {
    if popped == [] then []
    else Values(popped[..|popped| - 1])
         + (if popped[|popped| - 1].Some? then [popped[|popped| - 1].value] else [])
  }

  function Accepted<T>(mode: Mode, depth: nat, c: seq<T>, ops: seq<Op<T>>): seq<T> {
    if ops == [] then []
    else
      var before := ops[..|ops| - 1];
      Accepted(mode, depth, c, before)
      + (if ops[|ops| - 1].DoPush? && |RunSpec(mode, depth, c, before).0| < depth then [ops[|ops| - 1].x] else [])
  }

  lemma ValuesOfOneMore<T>(popped: seq<Option<T>>, x: Option<T>)
    ensures Values(popped + [x]) == Values(popped) + (if x.Some? then [x.value] else [])
  {
    assert (popped + [x])[..|popped|] == popped;
  }

  /** Taking an entry out, or in, moves it between what came out, what is inside and what was taken in. */
  lemma FifoMoves<T>(depth: nat, came: seq<T>, inside: seq<T>, c: seq<T>, taken: seq<T>, x: T)
    requires |inside| <= depth && came + inside == c + taken
    ensures inside != [] ==> came + [inside[0]] + inside[1..] == c + taken
    ensures came + (inside + [x]) == c + (taken + [x])
  {
    if inside != [] {
      assert came + [inside[0]] + inside[1..] == came + inside;
    }
    assert came + (inside + [x]) == (came + inside) + [x];
    assert c + (taken + [x]) == (c + taken) + [x];
  }

  lemma OneMoreOp<T>(depth: nat, c: seq<T>, ops: seq<Op<T>>)
    requires ops != []
    ensures var before, op := ops[..|ops| - 1], ops[|ops| - 1];
            var r, s := RunSpec(Fifo, depth, c, before), RunSpec(Fifo, depth, c, ops);
            && s.0 == (if op == DoPop then AfterPop(Fifo, r.0) else AfterPush(Fifo, depth, r.0, op.x))
            && Values(s.1) == Values(r.1) + (if op == DoPop && r.0 != [] then [r.0[0]] else [])
            && Accepted(Fifo, depth, c, ops)
               == Accepted(Fifo, depth, c, before) + (if op.DoPush? && |r.0| < depth then [op.x] else [])
  {
    var r := RunSpec(Fifo, depth, c, ops[..|ops| - 1]);
    ValuesOfOneMore(r.1, PopResult(Fifo, r.0));
    assert Values(r.1) + [] == Values(r.1);
    hide Values;
  }

  /** A first-in-first-out pipe loses, duplicates and reorders nothing, and is never overfull. */
  lemma {:induction false} FifoConserves<T>(depth: nat, c: seq<T>, ops: seq<Op<T>>)
    requires |c| <= depth
    ensures var r := RunSpec(Fifo, depth, c, ops);
      |r.0| <= depth && Values(r.1) + r.0 == c + Accepted(Fifo, depth, c, ops)
  {
    if ops != [] {
      var before, op := ops[..|ops| - 1], ops[|ops| - 1];
      FifoConserves(depth, c, before);
      OneMoreOp(depth, c, ops);
      hide RunSpec, Values, Accepted;
      var r := RunSpec(Fifo, depth, c, before);
      var out, taken := Values(r.1), Accepted(Fifo, depth, c, before);
      assert out + [] == out && taken + [] == taken;
      if op.DoPush? {
        FifoMoves(depth, out, r.0, c, taken, op.x);
      } else if r.0 != [] {
        FifoMoves(depth, out, r.0, c, taken, r.0[0]);
      }
    }
  }

  /** No operation of the run takes a pipe with c below its first entry; pops and accepted pushes are matched. */
  predicate Above<T>(depth: nat, c: seq<T>, ops: seq<Op<T>>) {
    forall n :: 0 <= n <= |ops| ==> |RunSpec(Lifo, depth, c, ops[..n]).0| >= |c|
  }

  /** One operation that leaves a stack at least as high as c does not reach c. */
  lemma TopMoves<T>(depth: nat, c: seq<T>, r: seq<T>, x: T)
    requires |r| >= |c| && r[..|c|] == c
    ensures |AfterPop(Lifo, r)| >= |c| ==> AfterPop(Lifo, r)[..|c|] == c
    ensures AfterPush(Lifo, depth, r, x)[..|c|] == c
  {
  }

  lemma TopOnly<T>(c: seq<T>)
    ensures |AfterPop(Lifo, c)| >= |c| ==> AfterPop(Lifo, c) == c
    ensures c != [] ==> PopResult(Lifo, c) == Some(c[|c| - 1])
  {
  }

  lemma {:induction false} LowestKept<T>(depth: nat, c: seq<T>, ops: seq<Op<T>>)
    requires Above(depth, c, ops)
    ensures var r := RunSpec(Lifo, depth, c, ops).0; |r| >= |c| && r[..|c|] == c
  {
    hide AfterPop, AfterPush, PopResult;
    assert ops[..|ops|] == ops;
    assert |RunSpec(Lifo, depth, c, ops).0| >= |c|;
    if ops != [] {
      var before := ops[..|ops| - 1];
      forall n | 0 <= n <= |before| ensures |RunSpec(Lifo, depth, c, before[..n]).0| >= |c| {
        assert before[..n] == ops[..n];
      }
      LowestKept(depth, c, before);
      var r := RunSpec(Lifo, depth, c, before).0;
      match ops[|ops| - 1]
      case DoPop => if r != [] { TopMoves(depth, c, r, r[0]); } else { TopOnly(r); }
      case DoPush(x) => TopMoves(depth, c, r, x);
    }
  }

  /** Last in, first out: what lies below is neither seen nor changed while others come and go above it, so when they
      have all gone the entry pushed before them is the next to come out. */
  lemma LifoKeepsBelow<T>(depth: nat, c: seq<T>, ops: seq<Op<T>>)
    requires Above(depth, c, ops)
    ensures |RunSpec(Lifo, depth, c, ops).0| >= |c| && RunSpec(Lifo, depth, c, ops).0[..|c|] == c
    ensures |RunSpec(Lifo, depth, c, ops).0| == |c| > 0 ==>
              PopResult(Lifo, RunSpec(Lifo, depth, c, ops).0) == Some(c[|c| - 1])
  {
    LowestKept(depth, c, ops);
    hide RunSpec, Above;
  }

  // ----- When POPANDRESTORE is only a look -----

  /** The operations done on a record, whatever its pointers, and the values that come out. */
  function RunRec<T>(p: Rec<T>, ops: seq<Op<T>>): (r: (Rec<T>, seq<Option<T>>))
    requires p.WellFormed()
    ensures r.0.WellFormed()
  {
    if ops == [] then (p, [])
    else
      var before := RunRec(p, ops[..|ops| - 1]);
      match ops[|ops| - 1]
      case DoPop => (Popped(before.0), before.1 + [ValuePopped(before.0)])
      case DoPush(x) => (Pushed(before.0, x), before.1)
  }

  lemma {:induction false} RunRefines<T>(p: Rec<T>, base: nat, ops: seq<Op<T>>)
    requires InOrder(p, base)
    ensures var r := RunRec(p, ops);
      && InOrder(r.0, base) && r.0.mode == p.mode && |r.0.buffer| == |p.buffer|
      && (Entries(r.0, base), r.1) == RunSpec(p.mode, |p.buffer|, Entries(p, base), ops)
  {
    if ops != [] {
      var before := ops[..|ops| - 1];
      RunRefines(p, base, before);
      var q := RunRec(p, before).0;
      PopRefines(q, base);
      if ops[|ops| - 1].DoPush? {
        PushRefines(q, base, ops[|ops| - 1].x);
      }
      hide Entries, PopResult, AfterPop, AfterPush, Pushed, Popped, ValuePopped;
    }
  }

  /** For every pipe of this size and filling, nothing that is done afterwards can tell that POPANDRESTORE came before:
      the values that come out are those of the queue or stack with the entries from before it. */
  ghost predicate OnlyLooks(mode: Mode, depth: nat, n: nat) {
    forall p: Rec<int>, base: nat, ops: seq<Op<int>> ::
      InOrder(p, base) && p.mode == mode && |p.buffer| == depth && p.numberOfEntries == n
      ==> RunRec(Restored(p), ops).1 == RunSpec(mode, depth, Entries(p, base), ops).1
  }

  /** A pipe with entries 0, 1, ..., n-1 and the numbers from n on in the free places. */
  function Numbered(mode: Mode, depth: nat, n: nat): Rec<int>
    requires 0 < n < depth
  {
    Rec(mode, seq(depth, i => i), if mode == Fifo then 0 else n - 1, n, n)
  }

  lemma OneOp<T>(p: Rec<T>, mode: Mode, depth: nat, c: seq<T>, ops: seq<Op<T>>, op: Op<T>)
    requires p.WellFormed()
    ensures var r, s := RunRec(p, ops), RunSpec(mode, depth, c, ops);
      && RunRec(p, ops + [op]) == (match op case DoPop => (Popped(r.0), r.1 + [ValuePopped(r.0)]) case DoPush(x) => (Pushed(r.0, x), r.1))
      && RunSpec(mode, depth, c, ops + [op])
         == (match op case DoPop => (AfterPop(mode, s.0), s.1 + [PopResult(mode, s.0)]) case DoPush(x) => (AfterPush(mode, depth, s.0, x), s.1))
  {
    assert (ops + [op])[..|ops|] == ops;
  }

  /** A push and a pop. */
  lemma PushPop<T>(p: Rec<T>, mode: Mode, depth: nat, c: seq<T>, x: T)
    requires p.WellFormed()
    ensures RunRec(p, [DoPush(x)] + [DoPop]) == (Popped(Pushed(p, x)), [ValuePopped(Pushed(p, x))])
    ensures var d := AfterPush(mode, depth, c, x);
            RunSpec(mode, depth, c, [DoPush(x)] + [DoPop]) == (AfterPop(mode, d), [PopResult(mode, d)])
  {
    hide Popped, Pushed, ValuePopped, AfterPush, AfterPop, PopResult;
    var none: seq<Op<T>> := [];
    var nothing: seq<Option<T>> := [];
    assert RunRec(p, none) == (p, nothing) && RunSpec(mode, depth, c, none) == (c, nothing);
    assert none + [DoPush(x)] == [DoPush(x)];
    OneOp(p, mode, depth, c, none, DoPush(x));
    OneOp(p, mode, depth, c, [DoPush(x)], DoPop);
    hide RunRec, RunSpec;
    assert nothing + [ValuePopped(Pushed(p, x))] == [ValuePopped(Pushed(p, x))];
    var d := AfterPush(mode, depth, c, x);
    assert nothing + [PopResult(mode, d)] == [PopResult(mode, d)];
  }

  /** A push takes the place of the first entry of the queue. */
  lemma QueueLosesFirst(p: Rec<int>, n: nat, ops: seq<Op<int>>)
    requires 0 < n < |p.buffer| && p == Numbered(Fifo, |p.buffer|, n) && ops == [DoPush(-1)] + [DoPop]
    ensures InOrder(p, 0)
    ensures RunRec(Restored(p), ops).1 == [Some(-1)]
    ensures RunSpec(Fifo, |p.buffer|, Entries(p, 0), ops).1 == [Some(0)]
  {
    var c := Entries(p, 0);
    assert c[0] == 0;
    PushPop(Restored(p), Fifo, |p.buffer|, c, -1);
    hide Entries, RunRec, RunSpec;
  }

  /** A push takes the place of the top entry of the stack, and the entry under it comes out in its stead. */
  lemma StackLosesTop(p: Rec<int>, n: nat, ops: seq<Op<int>>)
    requires 0 < n < |p.buffer| && p == Numbered(Lifo, |p.buffer|, n) && ops == [DoPush(-1)] + [DoPop] + [DoPop]
    ensures InOrder(p, 0)
    ensures RunRec(Restored(p), ops).1 == [Some(-1)] + [Some(if n > 1 then n - 2 else |p.buffer| - 1)]
    ensures RunSpec(Lifo, |p.buffer|, Entries(p, 0), ops).1 == [Some(-1)] + [Some(n - 1)]
  {
    var c := Entries(p, 0);
    assert c[n - 1] == n - 1;
    PushPop(Restored(p), Lifo, |p.buffer|, c, -1);
    OneOp(Restored(p), Lifo, |p.buffer|, c, [DoPush(-1)] + [DoPop], DoPop);
    hide Entries, RunRec, RunSpec;
    assert AfterPop(Lifo, AfterPush(Lifo, |p.buffer|, c, -1)) == c;
  }

  /** The exact condition: POPANDRESTORE only looks at a queue or a stack exactly when it is empty or full. */
  lemma OnlyLooksIff(mode: Mode, depth: nat, n: nat)
    requires depth > 0 && n <= depth && mode != Signal
    ensures OnlyLooks(mode, depth, n) <==> n == 0 || n == depth
  {
    if n == 0 || n == depth {
      forall p: Rec<int>, base: nat, ops: seq<Op<int>>
        | InOrder(p, base) && p.mode == mode && |p.buffer| == depth && p.numberOfEntries == n
        ensures RunRec(Restored(p), ops).1 == RunSpec(mode, depth, Entries(p, base), ops).1
      {
        RestoredInOrder(p, base);
        RunRefines(Restored(p), NewBase(p, base), ops);
        hide InOrder, Entries, RunRec, RunSpec;
      }
    } else {
      var p := Numbered(mode, depth, n);
      var ops: seq<Op<int>> := if mode == Fifo then [DoPush(-1)] + [DoPop] else [DoPush(-1)] + [DoPop] + [DoPop];
      if mode == Fifo {
        QueueLosesFirst(p, n, ops);
      } else {
        StackLosesTop(p, n, ops);
      }
      hide InOrder, Entries, RunRec, RunSpec;
      assert mode == Lifo ==> RunRec(Restored(p), ops).1[1] != RunSpec(mode, depth, Entries(p, 0), ops).1[1];
      assert RunRec(Restored(p), ops).1 != RunSpec(mode, depth, Entries(p, 0), ops).1;
    }
  }

  /** A signal is always only looked at. */
  lemma SignalOnlyLooks(depth: nat, n: nat)
    ensures OnlyLooks(Signal, depth, n)
  {
    forall p: Rec<int>, base: nat, ops: seq<Op<int>>
      | InOrder(p, base) && p.mode == Signal && |p.buffer| == depth && p.numberOfEntries == n
      ensures RunRec(Restored(p), ops).1 == RunSpec(Signal, depth, Entries(p, base), ops).1
    {
      RestoredInOrder(p, base);
      RunRefines(Restored(p), NewBase(p, base), ops);
      hide InOrder, Entries, RunRec, RunSpec;
    }
  }

  // ----- What goes in comes out -----

  function Pushes<T>(xs: seq<T>): seq<Op<T>> { seq(|xs|, i requires 0 <= i < |xs| => DoPush(xs[i])) }
  function Pops<T>(n: nat): seq<Op<T>> { seq(n, _ => DoPop) }

  lemma NextOp<T>(mode: Mode, depth: nat, c: seq<T>, ops: seq<Op<T>>, op: Op<T>)
    ensures var s := RunSpec(mode, depth, c, ops);
            RunSpec(mode, depth, c, ops + [op])
            == match op
               case DoPop => (AfterPop(mode, s.0), s.1 + [PopResult(mode, s.0)])
               case DoPush(x) => (AfterPush(mode, depth, s.0, x), s.1)
  {
    assert (ops + [op])[..|ops|] == ops;
  }

  /** An empty queue or stack takes in as many values as it is deep, in order, and no more. */
  lemma {:induction false} PushesFill<T>(mode: Mode, depth: nat, xs: seq<T>)
    requires mode != Signal
    ensures RunSpec(mode, depth, [], Pushes(xs)) == (xs[..if |xs| < depth then |xs| else depth], [])
  {
    if xs == [] {
      assert Pushes(xs) == [];
    } else {
      var n := |xs| - 1;
      assert Pushes(xs) == Pushes(xs[..n]) + [DoPush(xs[n])];
      PushesFill(mode, depth, xs[..n]);
      NextOp(mode, depth, [], Pushes(xs[..n]), DoPush(xs[n]));
      hide RunSpec, Pushes;
      if n < depth {
        assert xs[..n][..n] + [xs[n]] == xs[..n + 1];
      } else {
        assert xs[..n][..depth] == xs[..depth];
      }
    }
  }

  /** The n oldest entries, oldest first, and the n newest, newest first. */
  function Oldest<T>(c: seq<T>, n: nat): seq<Option<T>>
    requires n <= |c|
  {
    seq(n, i requires 0 <= i < n => Some(c[i]))
  }
  function Newest<T>(c: seq<T>, n: nat): seq<Option<T>>
    requires n <= |c|
  {
    seq(n, i requires 0 <= i < n => Some(c[|c| - 1 - i]))
  }

  lemma OneOlder<T>(c: seq<T>, n: nat)
    requires n < |c|
    ensures Oldest(c, n) + [Some(c[n])] == Oldest(c, n + 1)
    ensures Newest(c, n) + [Some(c[|c| - 1 - n])] == Newest(c, n + 1)
  {
  }

  /** n pops of a queue. */
  lemma {:induction false} QueueEmpties<T>(depth: nat, c: seq<T>, ops: seq<Op<T>>, n: nat)
    requires n <= |RunSpec(Fifo, depth, c, ops).0|
    ensures var s := RunSpec(Fifo, depth, c, ops);
            RunSpec(Fifo, depth, c, ops + Pops(n)) == (s.0[n..], s.1 + Oldest(s.0, n))
  {
    var s := RunSpec(Fifo, depth, c, ops);
    if n == 0 {
      hide RunSpec;
      assert ops + Pops(0) == ops && Oldest(s.0, 0) == [] && s.0[0..] == s.0;
      assert s.1 + [] == s.1;
    } else {
      hide RunSpec;
      QueueEmpties(depth, c, ops, n - 1);
      assert ops + Pops(n) == ops + Pops(n - 1) + [DoPop];
      NextOp(Fifo, depth, c, ops + Pops(n - 1), DoPop);
      hide Pops;
      assert s.0[n - 1..][1..] == s.0[n..] && s.0[n - 1..][0] == s.0[n - 1];
      OneOlder(s.0, n - 1);
      hide Oldest;
      assert (s.1 + Oldest(s.0, n - 1)) + [Some(s.0[n - 1])] == s.1 + (Oldest(s.0, n - 1) + [Some(s.0[n - 1])]);
    }
  }

  /** n pops of a stack. */
  lemma {:induction false} StackEmpties<T>(depth: nat, c: seq<T>, ops: seq<Op<T>>, n: nat)
    requires n <= |RunSpec(Lifo, depth, c, ops).0|
    ensures var s := RunSpec(Lifo, depth, c, ops);
            RunSpec(Lifo, depth, c, ops + Pops(n))
            == (s.0[..|s.0| - n], s.1 + Newest(s.0, n))
  {
    var s := RunSpec(Lifo, depth, c, ops);
    if n == 0 {
      hide RunSpec;
      assert ops + Pops(0) == ops && Newest(s.0, 0) == [] && s.0[..|s.0|] == s.0;
      assert s.1 + [] == s.1;
    } else {
      hide RunSpec;
      StackEmpties(depth, c, ops, n - 1);
      assert ops + Pops(n) == ops + Pops(n - 1) + [DoPop];
      NextOp(Lifo, depth, c, ops + Pops(n - 1), DoPop);
      hide Pops;
      var m := |s.0| - n;
      assert s.0[..m + 1][..m] == s.0[..m] && s.0[..m + 1][m] == s.0[m];
      OneOlder(s.0, n - 1);
      hide Newest;
      assert (s.1 + Newest(s.0, n - 1)) + [Some(s.0[m])] == s.1 + (Newest(s.0, n - 1) + [Some(s.0[m])]);
    }
  }

  lemma EmptyInOrder<T>(p: Rec<T>, base: nat)
    requires InOrder(p, base) && p.mode != Signal && p.numberOfEntries == 0
    ensures Entries(p, base) == []
  {
  }

  /** Values put into an empty queue come out in the same order. */
  lemma QueueKeepsOrder<T>(p: Rec<T>, base: nat, xs: seq<T>)
    requires InOrder(p, base) && p.mode == Fifo && p.numberOfEntries == 0 && |xs| <= |p.buffer|
    ensures RunRec(p, Pushes(xs) + Pops(|xs|)).1 == seq(|xs|, i requires 0 <= i < |xs| => Some(xs[i]))
  {
    EmptyInOrder(p, base);
    RunRefines(p, base, Pushes(xs) + Pops(|xs|));
    PushesFill(Fifo, |p.buffer|, xs);
    hide RunRec, RunSpec, InOrder, Entries, Pushes, Pops;
    assert xs[..|xs|] == xs;
    QueueEmpties(|p.buffer|, [], Pushes(xs), |xs|);
  }

  /** Values put onto an empty stack come out in the reverse order. */
  lemma StackReversesOrder<T>(p: Rec<T>, base: nat, xs: seq<T>)
    requires InOrder(p, base) && p.mode == Lifo && p.numberOfEntries == 0 && |xs| <= |p.buffer|
    ensures RunRec(p, Pushes(xs) + Pops(|xs|)).1 == seq(|xs|, i requires 0 <= i < |xs| => Some(xs[|xs| - 1 - i]))
  {
    EmptyInOrder(p, base);
    RunRefines(p, base, Pushes(xs) + Pops(|xs|));
    PushesFill(Lifo, |p.buffer|, xs);
    hide RunRec, RunSpec, InOrder, Entries, Pushes, Pops;
    assert xs[..|xs|] == xs;
    StackEmpties(|p.buffer|, [], Pushes(xs), |xs|);
  }

  /** A signal gives the value last written, as often as it is read, whatever came before. */
  lemma {:induction false} SignalGivesLast<T>(p: Rec<T>, base: nat, ops: seq<Op<T>>, x: T, n: nat)
    requires InOrder(p, base) && p.mode == Signal
    ensures RunRec(p, ops + [DoPush(x)] + Pops(n)).1 == RunRec(p, ops).1 + seq(n, _ => Some(x))
    ensures RunRec(p, ops + [DoPush(x)] + Pops(n)).0.buffer[0] == x
    ensures RunRec(p, ops + [DoPush(x)] + Pops(n)).0.mode == Signal
  {
    RunRefines(p, base, ops);
    if n == 0 {
      assert ops + [DoPush(x)] + Pops(0) == ops + [DoPush(x)];
      OneOp(p, Signal, 1, [], ops, DoPush(x));
    } else {
      SignalGivesLast(p, base, ops, x, n - 1);
      var before := ops + [DoPush(x)] + Pops(n - 1);
      assert ops + [DoPush(x)] + Pops(n) == before + [DoPop];
      OneOp(p, Signal, 1, [], before, DoPop);
      hide RunRec, RunSpec, InOrder, Entries;
    }
  }
}
