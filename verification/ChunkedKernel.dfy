/** The sparse matrix-vector product of CFD: two or four workers take a chunk of the faces each and add into arrays of
    their own, which are summed at the end. Values are exact reals. */
module ChunkedKernel {

  import opened SparseMatrix

  // ----- The sequential product -----

  /** __Contrib: what face f adds to the array. */
  function Contribute(m: Sparse, a: seq<real>, f: nat): (r: seq<real>)
    requires m.Valid() && |a| == |m.psi| && f < |m.u|
    ensures |r| == |a|
  {
    var u, l := m.u[f], m.l[f];
    var b := a[u := a[u] + Times(m.lower[f], m.psi[l])];
    b[l := b[l] + Times(m.upper[f], m.psi[u])]
  }

  function Times(x: real, y: real): real {
    x * y
  }

  function Accumulate(m: Sparse, a: seq<real>, from: nat, end: nat): (r: seq<real>)
    requires m.Valid() && |a| == |m.psi| && from <= end <= |m.u|
    ensures |r| == |a|
  {
    if from == end then a else Contribute(m, Accumulate(m, a, from, end - 1), end - 1)
  }

  function Scale(m: Sparse, c: nat): real
    requires m.Valid() && c < |m.psi|
  {
    Times(m.diag[c], m.psi[c])
  }

  /** Cells from..end-1 of a set to the products with the diagonal. */
  function Scaled(m: Sparse, a: seq<real>, from: nat, end: nat): (r: seq<real>)
    requires m.Valid() && |a| == |m.psi| && from <= end <= |a|
    ensures |r| == |a|
  {
    seq(|a|, c requires 0 <= c < |a| => if from <= c < end then Scale(m, c) else a[c])
  }

  // ----- The unrolled loops -----

  /** __ScaleLoop: four cells at a time, and the rest one by one. */
  method ScaleLoop(m: Sparse, startIndex: nat, endIndex: nat, tmp: array<real>)
    requires m.Valid() && tmp.Length == |m.psi| && startIndex <= endIndex <= |m.psi|
    modifies tmp
    ensures tmp[..] == Scaled(m, old(tmp[..]), startIndex, endIndex)
    ensures forall c :: startIndex <= c < endIndex ==> tmp[..][c] == m.diag[c] * m.psi[c]
  {
    hide Scale, Sparse.Valid;
    var endIndexR := startIndex + (endIndex - startIndex) / 4 * 4;
    var idx := startIndex;
    while idx < endIndexR
      invariant startIndex <= idx <= endIndexR && (endIndexR - idx) % 4 == 0
      invariant tmp[..] == Scaled(m, old(tmp[..]), startIndex, idx)
    {
      tmp[idx] := Scale(m, idx);
      tmp[idx + 1] := Scale(m, idx + 1);
      tmp[idx + 2] := Scale(m, idx + 2);
      tmp[idx + 3] := Scale(m, idx + 3);
      idx := idx + 4;
    }
    while idx < endIndex
      invariant endIndexR <= idx <= endIndex
      invariant tmp[..] == Scaled(m, old(tmp[..]), startIndex, idx)
    {
      tmp[idx] := Scale(m, idx);
      idx := idx + 1;
    }
    ScaledIs(m, old(tmp[..]), startIndex, endIndex);
  }

  lemma ScaledIs(m: Sparse, a: seq<real>, from: nat, end: nat)
    requires m.Valid() && |a| == |m.psi| && from <= end <= |a|
    ensures forall c :: from <= c < end ==> Scaled(m, a, from, end)[c] == m.diag[c] * m.psi[c]
  {
  }

  method Contrib(m: Sparse, x: nat, tmp: array<real>)
    requires m.Valid() && tmp.Length == |m.psi| && x < |m.u|
    modifies tmp
    ensures tmp[..] == Contribute(m, old(tmp[..]), x)
  {
    var u0, l0 := m.u[x], m.l[x];
    tmp[u0] := tmp[u0] + Times(m.lower[x], m.psi[l0]);
    tmp[l0] := tmp[l0] + Times(m.upper[x], m.psi[u0]);
  }

  /** __ProductLoop: four faces at a time, and the rest one by one. */
  method ProductLoop(m: Sparse, startIndex: nat, endIndex: nat, tmp: array<real>)
    requires m.Valid() && tmp.Length == |m.psi| && startIndex <= endIndex <= |m.u|
    modifies tmp
    ensures tmp[..] == Accumulate(m, old(tmp[..]), startIndex, endIndex)
    ensures forall c :: 0 <= c < tmp.Length ==>
              tmp[c] == old(tmp[c]) + (ProductAt(m, endIndex, c) - ProductAt(m, startIndex, c))
  {
    hide Contribute, ProductAt;
    var endIndexR := startIndex + (endIndex - startIndex) / 4 * 4;
    var idx := startIndex;
    while idx < endIndexR
      invariant startIndex <= idx <= endIndexR && (endIndexR - idx) % 4 == 0
      invariant tmp[..] == Accumulate(m, old(tmp[..]), startIndex, idx)
    {
      Contrib(m, idx, tmp);
      assert tmp[..] == Accumulate(m, old(tmp[..]), startIndex, idx + 1);
      Contrib(m, idx + 1, tmp);
      assert tmp[..] == Accumulate(m, old(tmp[..]), startIndex, idx + 2);
      Contrib(m, idx + 2, tmp);
      assert tmp[..] == Accumulate(m, old(tmp[..]), startIndex, idx + 3);
      Contrib(m, idx + 3, tmp);
      idx := idx + 4;
    }
    while idx < endIndex
      invariant endIndexR <= idx <= endIndex
      invariant tmp[..] == Accumulate(m, old(tmp[..]), startIndex, idx)
    {
      Contrib(m, idx, tmp);
      idx := idx + 1;
    }
    forall c | 0 <= c < tmp.Length
      ensures tmp[c] == old(tmp[c]) + (ProductAt(m, endIndex, c) - ProductAt(m, startIndex, c))
    {
      AccumulatedProduct(m, old(tmp[..]), startIndex, endIndex, c);
    }
  }

  /** AMulMatVec without PARALLELIZED. */
  method AMulMatVec(m: Sparse, nCells: nat, nFaces: nat, apsi: array<real>)
    requires m.Valid() && apsi.Length == |m.psi| && nCells <= |m.psi| && nFaces <= |m.u|
    modifies apsi
    ensures apsi[..] == Accumulate(m, Scaled(m, old(apsi[..]), 0, nCells), 0, nFaces)
    ensures forall r :: 0 <= r < nCells ==> apsi[r] == ProductAt(m, nFaces, r)
  {
    ScaleLoop(m, 0, nCells, apsi);
    ProductLoop(m, 0, nFaces, apsi);
    forall r | 0 <= r < nCells ensures apsi[r] == ProductAt(m, nFaces, r) {
      ProductOfNone(m, r);
    }
  }

  // ----- The product, entry by entry -----

  lemma ContributedProduct(m: Sparse, a: seq<real>, f: nat, c: nat)
    requires m.Valid() && |a| == |m.psi| && f < |m.u| && c < |a|
    ensures Contribute(m, a, f)[c] == a[c] + (ProductAt(m, f + 1, c) - ProductAt(m, f, c))
  {
    ProductOfOneMore(m, f, c);
    hide ProductAt;
  }

  lemma {:induction false} AccumulatedProduct(m: Sparse, a: seq<real>, from: nat, end: nat, c: nat)
    requires m.Valid() && |a| == |m.psi| && from <= end <= |m.u| && c < |a|
    ensures Accumulate(m, a, from, end)[c] == a[c] + (ProductAt(m, end, c) - ProductAt(m, from, c))
  {
    if from < end {
      AccumulatedProduct(m, a, from, end - 1, c);
      ContributedProduct(m, Accumulate(m, a, from, end - 1), end - 1, c);
      hide Contribute, ProductAt;
    }
  }

  /** The sequential product is that of the matrix whose entries are the diagonal, lower and upper. */
  lemma SequentialProduct(m: Sparse, a: seq<real>, nCells: nat, nFaces: nat, c: nat)
    requires m.Valid() && |a| == |m.psi| && c < nCells <= |a| && nFaces <= |m.u|
    ensures Accumulate(m, Scaled(m, a, 0, nCells), 0, nFaces)[c] == ProductAt(m, nFaces, c)
  {
    AccumulatedProduct(m, Scaled(m, a, 0, nCells), 0, nFaces, c);
    ProductOfNone(m, c);
    hide Accumulate, ProductAt;
  }

  // ----- The chunks -----

  /** The first index of chunk w of n indices for k workers; the last chunk takes what is left. */
  function ChunkStart(n: nat, k: nat, w: nat): (s: nat)
    requires (k == 2 || k == 4) && w <= k
    ensures s <= n
  {
    var size := if k == 4 then n / 4 else n / 2;
    if w == k then n else if w == 0 then 0 else if w == 1 then size else if w == 2 then 2 * size else 3 * size
  }

  lemma ChunksInOrder(n: nat, k: nat, w: nat)
    requires (k == 2 || k == 4) && w < k
    ensures ChunkStart(n, k, w) <= ChunkStart(n, k, w + 1)
    ensures ChunkStart(n, k, 0) == 0 && ChunkStart(n, k, k) == n
  {
  }

  /** The chunks have a half or a quarter of the indices, rounded down, and the last has the rest. */
  lemma ChunkSizes(n: nat)
    ensures ChunkStart(n, 2, 0) == 0 && ChunkStart(n, 2, 1) == n / 2 && ChunkStart(n, 2, 2) == n
    ensures ChunkStart(n, 4, 0) == 0 && ChunkStart(n, 4, 1) == n / 4 && ChunkStart(n, 4, 2) == n / 4 + n / 4
    ensures ChunkStart(n, 4, 3) == n / 4 + n / 4 + n / 4 && ChunkStart(n, 4, 4) == n
  {
  }

  /** Every index is in exactly one chunk. */
  lemma ChunksPartition(n: nat, k: nat, i: nat) returns (w: nat)
    requires (k == 2 || k == 4) && i < n
    ensures w < k && ChunkStart(n, k, w) <= i < ChunkStart(n, k, w + 1)
    ensures forall v :: 0 <= v < k && ChunkStart(n, k, v) <= i < ChunkStart(n, k, v + 1) ==> v == w
  {
    if i < ChunkStart(n, k, 1) { w := 0; }
    else if i < ChunkStart(n, k, 2) { w := 1; }
    else if i < ChunkStart(n, k, 3) { w := 2; }
    else { w := 3; }
  }

  // ----- The workers, in any order of steps -----

  /** done[w] is the next index of worker w; arrays[w] is its temporary. */
  datatype State = State(done: seq<nat>, arrays: seq<seq<real>>)

  function Zeros(n: nat): (z: seq<real>)
    ensures |z| == n && forall c :: 0 <= c < n ==> z[c] == 0.0
  {
    seq(n, _ => 0.0)
  }

  ghost predicate Shaped(m: Sparse, nFaces: nat, k: nat, s: State) {
    && m.Valid() && nFaces <= |m.u| && (k == 2 || k == 4)
    && |s.done| == |s.arrays| == k && forall w :: 0 <= w < k ==> |s.arrays[w]| == |m.psi|
  }

  ghost predicate Problem(m: Sparse, nFaces: nat, k: nat) {
    m.Valid() && nFaces <= |m.u| && (k == 2 || k == 4)
  }

  function InitialState(m: Sparse, nFaces: nat, k: nat): (s: State)
    requires Problem(m, nFaces, k)
    ensures Shaped(m, nFaces, k, s)
  {
    State(seq(k, w requires 0 <= w < k => ChunkStart(nFaces, k, w)), seq(k, _ => Zeros(|m.psi|)))
  }

  /** One face of worker w's chunk, if there is one left. */
  function WorkerStep(m: Sparse, nFaces: nat, k: nat, s: State, w: nat): (r: State)
    requires Shaped(m, nFaces, k, s)
    ensures Shaped(m, nFaces, k, r)
  {
    if w < k && s.done[w] < ChunkStart(nFaces, k, w + 1) then
      State(s.done[w := s.done[w] + 1], s.arrays[w := Contribute(m, s.arrays[w], s.done[w])])
    else s
  }

  function Reached(m: Sparse, nFaces: nat, k: nat, s: State, schedule: seq<nat>): (r: State)
    requires Shaped(m, nFaces, k, s)
    ensures Shaped(m, nFaces, k, r)
  {
    if schedule == [] then s
    else WorkerStep(m, nFaces, k, Reached(m, nFaces, k, s, schedule[..|schedule| - 1]), schedule[|schedule| - 1])
  }

  /** Every worker's array holds what the faces it has done give, whatever the others did. */
  ghost predicate Inv(m: Sparse, nFaces: nat, k: nat, s: State)
    requires Shaped(m, nFaces, k, s)
  {
    forall w: nat :: w < k ==> WorkerOk(m, nFaces, k, s, w)
  }

  ghost predicate WorkerOk(m: Sparse, nFaces: nat, k: nat, s: State, w: nat)
    requires Shaped(m, nFaces, k, s) && w < k
  {
    && ChunkStart(nFaces, k, w) <= s.done[w] <= ChunkStart(nFaces, k, w + 1)
    && s.arrays[w] == Accumulate(m, Zeros(|m.psi|), ChunkStart(nFaces, k, w), s.done[w])
  }

  lemma StepKeepsInv(m: Sparse, nFaces: nat, k: nat, s: State, v: nat)
    requires Shaped(m, nFaces, k, s) && Inv(m, nFaces, k, s)
    ensures Inv(m, nFaces, k, WorkerStep(m, nFaces, k, s, v))
  {
    hide Contribute, ChunkStart;
    forall w: nat | w < k ensures WorkerOk(m, nFaces, k, WorkerStep(m, nFaces, k, s, v), w) {
      assert WorkerOk(m, nFaces, k, s, w);
    }
  }

  lemma {:induction false} InvOfRun(m: Sparse, nFaces: nat, k: nat, schedule: seq<nat>)
    requires Problem(m, nFaces, k)
    ensures Inv(m, nFaces, k, Reached(m, nFaces, k, InitialState(m, nFaces, k), schedule))
  {
    var s := InitialState(m, nFaces, k);
    if schedule == [] {
      forall w: nat | w < k ensures WorkerOk(m, nFaces, k, s, w) {
        ChunksInOrder(nFaces, k, w);
        hide ChunkStart;
      }
    } else {
      hide Inv, WorkerStep;
      InvOfRun(m, nFaces, k, schedule[..|schedule| - 1]);
      StepKeepsInv(m, nFaces, k, Reached(m, nFaces, k, s, schedule[..|schedule| - 1]), schedule[|schedule| - 1]);
    }
  }

  // ----- Sums of contributions -----

  /** What face f adds to cell c. */
  function Part(m: Sparse, f: nat, c: nat): real
    requires m.Valid() && f < |m.u|
  {
    (if m.u[f] == c then Times(m.lower[f], m.psi[m.l[f]]) else 0.0)
    + (if m.l[f] == c then Times(m.upper[f], m.psi[m.u[f]]) else 0.0)
  }

  function Parts(m: Sparse, from: nat, end: nat, c: nat): real
    requires m.Valid() && from <= end <= |m.u|
  {
    if from == end then 0.0 else Parts(m, from, end - 1, c) + Part(m, end - 1, c)
  }

  lemma {:induction false} AccumulateAt(m: Sparse, a: seq<real>, from: nat, end: nat, c: nat)
    requires m.Valid() && |a| == |m.psi| && from <= end <= |m.u| && c < |a|
    ensures Accumulate(m, a, from, end)[c] == a[c] + Parts(m, from, end, c)
  {
    if from < end {
      AccumulateAt(m, a, from, end - 1, c);
      ContributeAt(m, Accumulate(m, a, from, end - 1), end - 1, c);
      hide Contribute, Part;
    }
  }

  lemma ContributeAt(m: Sparse, a: seq<real>, f: nat, c: nat)
    requires m.Valid() && |a| == |m.psi| && f < |m.u| && c < |a|
    ensures Contribute(m, a, f)[c] == a[c] + Part(m, f, c)
  {
    hide Times;
  }

  lemma {:induction false} PartsSplit(m: Sparse, from: nat, mid: nat, end: nat, c: nat)
    requires m.Valid() && from <= mid <= end <= |m.u|
    ensures Parts(m, from, end, c) == Parts(m, from, mid, c) + Parts(m, mid, end, c)
  {
    hide Part;
    if mid < end {
      PartsSplit(m, from, mid, end - 1, c);
    }
  }

  // ----- The sum of the temporaries -----

  function SumOf(d: real, x0: real, x1: real, x2: real, x3: real): real {
    d + ((x0 + x1) + (x2 + x3))
  }

  function SumOf2(d: real, x0: real, x1: real): real {
    d + (x0 + x1)
  }

  /** The right-hand side of sumTemporaries for one cell. */
  function SumAt(diagProd: real, s: State, c: nat): real
    requires |s.arrays| == 2 || |s.arrays| == 4
    requires forall w :: 0 <= w < |s.arrays| ==> c < |s.arrays[w]|
  {
    if |s.arrays| == 4 then SumOf(diagProd, s.arrays[0][c], s.arrays[1][c], s.arrays[2][c], s.arrays[3][c])
    else SumOf2(diagProd, s.arrays[0][c], s.arrays[1][c])
  }

  /** What a worker that has finished its chunk holds for cell c. */
  lemma FinishedAt(m: Sparse, nFaces: nat, k: nat, s: State, w: nat, c: nat)
    requires Shaped(m, nFaces, k, s) && Inv(m, nFaces, k, s) && w < k && c < |m.psi|
    requires s.done[w] == ChunkStart(nFaces, k, w + 1)
    ensures ChunkStart(nFaces, k, w) <= ChunkStart(nFaces, k, w + 1)
    ensures s.arrays[w][c] == Parts(m, ChunkStart(nFaces, k, w), ChunkStart(nFaces, k, w + 1), c)
  {
    hide ChunkStart;
    assert WorkerOk(m, nFaces, k, s, w);
    AccumulateAt(m, Zeros(|m.psi|), ChunkStart(nFaces, k, w), s.done[w], c);
    hide Accumulate, Parts;
  }

  /** When all workers have finished, in whatever order they took their steps, the diagonal product and the temporaries
      add up to the sequential product. */
  lemma ChunksAddUp(m: Sparse, nFaces: nat, k: nat, schedule: seq<nat>, apsi: seq<real>, nCells: nat, c: nat)
    requires Problem(m, nFaces, k) && |apsi| == |m.psi| && c < nCells <= |apsi|
    requires var s := Reached(m, nFaces, k, InitialState(m, nFaces, k), schedule);
      forall w :: 0 <= w < k ==> s.done[w] == ChunkStart(nFaces, k, w + 1)
    ensures var s := Reached(m, nFaces, k, InitialState(m, nFaces, k), schedule);
      SumAt(Scale(m, c), s, c) == Accumulate(m, Scaled(m, apsi, 0, nCells), 0, nFaces)[c]
  {
    hide Accumulate, Parts, Reached, InitialState, Inv, Scale, ChunkStart;
    var s := Reached(m, nFaces, k, InitialState(m, nFaces, k), schedule);
    InvOfRun(m, nFaces, k, schedule);
    AccumulateAt(m, Scaled(m, apsi, 0, nCells), 0, nFaces, c);
    ChunksInOrder(nFaces, k, 0);
    FinishedAt(m, nFaces, k, s, 0, c);
    FinishedAt(m, nFaces, k, s, 1, c);
    if k == 4 {
      FinishedAt(m, nFaces, k, s, 2, c);
      FinishedAt(m, nFaces, k, s, 3, c);
    }
    JoinChunks(m, nFaces, k, c);
  }

  lemma JoinChunks(m: Sparse, nFaces: nat, k: nat, c: nat)
    requires m.Valid() && nFaces <= |m.u| && (k == 2 || k == 4)
    ensures k == 2 ==> Parts(m, 0, nFaces, c) == Parts(m, 0, ChunkStart(nFaces, k, 1), c)
                                                 + Parts(m, ChunkStart(nFaces, k, 1), nFaces, c)
    ensures k == 4 ==>
              ChunkStart(nFaces, k, 1) <= ChunkStart(nFaces, k, 2) <= ChunkStart(nFaces, k, 3)
              && Parts(m, 0, nFaces, c) ==
                 Parts(m, 0, ChunkStart(nFaces, k, 1), c)
                 + Parts(m, ChunkStart(nFaces, k, 1), ChunkStart(nFaces, k, 2), c)
                 + Parts(m, ChunkStart(nFaces, k, 2), ChunkStart(nFaces, k, 3), c)
                 + Parts(m, ChunkStart(nFaces, k, 3), nFaces, c)
  {
    PartsSplit(m, 0, ChunkStart(nFaces, k, 1), nFaces, c);
    if k == 4 {
      PartsSplit(m, ChunkStart(nFaces, k, 1), ChunkStart(nFaces, k, 2), nFaces, c);
      PartsSplit(m, ChunkStart(nFaces, k, 2), ChunkStart(nFaces, k, 3), nFaces, c);
    }
    hide Parts;
  }

  // ----- The scaling workers share one array -----

  function ScaleStep(m: Sparse, nCells: nat, k: nat, done: seq<nat>, a: seq<real>, w: nat): (r: (seq<nat>, seq<real>))
    requires m.Valid() && (k == 2 || k == 4) && |done| == k && |a| == |m.psi| && nCells <= |a|
    ensures |r.0| == k && |r.1| == |a|
  {
    if w < k && done[w] < ChunkStart(nCells, k, w + 1) then
      (done[w := done[w] + 1], a[done[w] := Scale(m, done[w])])
    else (done, a)
  }

  function ScaleRun(m: Sparse, nCells: nat, k: nat, a: seq<real>, schedule: seq<nat>): (r: (seq<nat>, seq<real>))
    requires m.Valid() && (k == 2 || k == 4) && |a| == |m.psi| && nCells <= |a|
    ensures |r.0| == k && |r.1| == |a|
  {
    if schedule == [] then (seq(k, w requires 0 <= w < k => ChunkStart(nCells, k, w)), a)
    else
      var before := ScaleRun(m, nCells, k, a, schedule[..|schedule| - 1]);
      ScaleStep(m, nCells, k, before.0, before.1, schedule[|schedule| - 1])
  }

  /** The cells that worker w has passed are scaled, in every interleaving. */
  lemma {:induction false} ScaledSoFar(m: Sparse, nCells: nat, k: nat, a: seq<real>, schedule: seq<nat>, w: nat, c: nat)
    requires m.Valid() && (k == 2 || k == 4) && |a| == |m.psi| && nCells <= |a| && w < k
    ensures var r := ScaleRun(m, nCells, k, a, schedule);
      && ChunkStart(nCells, k, w) <= r.0[w] <= ChunkStart(nCells, k, w + 1)
      && (ChunkStart(nCells, k, w) <= c < r.0[w] ==> r.1[c] == Scale(m, c))
  {
    if schedule == [] {
      ChunksInOrder(nCells, k, w);
      hide ChunkStart;
    } else {
      hide ChunkStart, Scale;
      ScaledSoFar(m, nCells, k, a, schedule[..|schedule| - 1], w, c);
    }
  }

  lemma AllScaled(m: Sparse, nCells: nat, k: nat, a: seq<real>, schedule: seq<nat>, c: nat)
    requires m.Valid() && (k == 2 || k == 4) && |a| == |m.psi| && c < nCells <= |a|
    requires forall w :: 0 <= w < k ==> ScaleRun(m, nCells, k, a, schedule).0[w] == ChunkStart(nCells, k, w + 1)
    ensures ScaleRun(m, nCells, k, a, schedule).1[c] == Scale(m, c)
  {
    var w := ChunksPartition(nCells, k, c);
    ScaledSoFar(m, nCells, k, a, schedule, w, c);
    hide ScaleRun, ChunkStart, Scale;
  }

  // ----- The stages together -----

  /** A worker of either stage. */
  datatype Worker = Scaler(w: nat) | Adder(w: nat)

  /** The scaling workers' next indices and their array, and the product workers'. */
  datatype Kernel = Kernel(scaled: seq<nat>, diagProd: seq<real>, products: State)

  ghost predicate KernelShaped(m: Sparse, nCells: nat, nFaces: nat, k: nat, s: Kernel) {
    && Shaped(m, nFaces, k, s.products) && |s.scaled| == k && |s.diagProd| == |m.psi| && nCells <= |m.psi|
  }

  function KernelStart(m: Sparse, nCells: nat, nFaces: nat, k: nat, diagProd: seq<real>): (s: Kernel)
    requires Problem(m, nFaces, k) && |diagProd| == |m.psi| && nCells <= |m.psi|
    ensures KernelShaped(m, nCells, nFaces, k, s)
  {
    Kernel(seq(k, w requires 0 <= w < k => ChunkStart(nCells, k, w)), diagProd, InitialState(m, nFaces, k))
  }

  function KernelStep(m: Sparse, nCells: nat, nFaces: nat, k: nat, s: Kernel, a: Worker): (r: Kernel)
    requires KernelShaped(m, nCells, nFaces, k, s)
    ensures KernelShaped(m, nCells, nFaces, k, r)
  {
    match a
    case Scaler(w) =>
      var (scaled, diagProd) := ScaleStep(m, nCells, k, s.scaled, s.diagProd, w);
      s.(scaled := scaled, diagProd := diagProd)
    case Adder(w) => s.(products := WorkerStep(m, nFaces, k, s.products, w))
  }

  function KernelRun(m: Sparse, nCells: nat, nFaces: nat, k: nat, diagProd: seq<real>, schedule: seq<Worker>): (r: Kernel)
    requires Problem(m, nFaces, k) && |diagProd| == |m.psi| && nCells <= |m.psi|
    ensures KernelShaped(m, nCells, nFaces, k, r)
  {
    if schedule == [] then KernelStart(m, nCells, nFaces, k, diagProd)
    else
      KernelStep(m, nCells, nFaces, k, KernelRun(m, nCells, nFaces, k, diagProd, schedule[..|schedule| - 1]),
                 schedule[|schedule| - 1])
  }

  /** The steps of the workers of one stage. */
  function Scalers(schedule: seq<Worker>): seq<nat> {
    if schedule == [] then []
    else
      var a := schedule[|schedule| - 1];
      Scalers(schedule[..|schedule| - 1]) + if a.Scaler? then [a.w] else []
  }

  function Adders(schedule: seq<Worker>): seq<nat> {
    if schedule == [] then []
    else
      var a := schedule[|schedule| - 1];
      Adders(schedule[..|schedule| - 1]) + if a.Adder? then [a.w] else []
  }

  lemma OneMoreScaled(m: Sparse, nCells: nat, k: nat, a: seq<real>, schedule: seq<nat>, w: nat)
    requires m.Valid() && (k == 2 || k == 4) && |a| == |m.psi| && nCells <= |a|
    ensures var r := ScaleRun(m, nCells, k, a, schedule);
            ScaleRun(m, nCells, k, a, schedule + [w]) == ScaleStep(m, nCells, k, r.0, r.1, w)
  {
    hide ScaleStep;
    assert (schedule + [w])[..|schedule|] == schedule;
  }

  lemma OneMoreAdded(m: Sparse, nFaces: nat, k: nat, s: State, schedule: seq<nat>, w: nat)
    requires Shaped(m, nFaces, k, s)
    ensures Reached(m, nFaces, k, s, schedule + [w]) == WorkerStep(m, nFaces, k, Reached(m, nFaces, k, s, schedule), w)
  {
    hide WorkerStep;
    assert (schedule + [w])[..|schedule|] == schedule;
  }

  /** The stages do not touch each other's arrays. */
  lemma {:induction false} StagesAreApart(m: Sparse, nCells: nat, nFaces: nat, k: nat, diagProd: seq<real>, schedule: seq<Worker>)
    requires Problem(m, nFaces, k) && |diagProd| == |m.psi| && nCells <= |m.psi|
    ensures var s := KernelRun(m, nCells, nFaces, k, diagProd, schedule);
      && (s.scaled, s.diagProd) == ScaleRun(m, nCells, k, diagProd, Scalers(schedule))
      && s.products == Reached(m, nFaces, k, InitialState(m, nFaces, k), Adders(schedule))
  {
    if schedule == [] {
      hide ChunkStart;
    } else {
      hide WorkerStep, ScaleStep, InitialState, ScaleRun, Reached, ChunkStart;
      var before, a := schedule[..|schedule| - 1], schedule[|schedule| - 1];
      StagesAreApart(m, nCells, nFaces, k, diagProd, before);
      OneMoreScaled(m, nCells, k, diagProd, Scalers(before), a.w);
      OneMoreAdded(m, nFaces, k, InitialState(m, nFaces, k), Adders(before), a.w);
      assert Scalers(before) + [] == Scalers(before) && Adders(before) + [] == Adders(before);
    }
  }

  /** All workers have come to the end of their chunks. */
  ghost predicate AllFinished(m: Sparse, nCells: nat, nFaces: nat, k: nat, s: Kernel)
    requires KernelShaped(m, nCells, nFaces, k, s)
  {
    forall w :: 0 <= w < k ==>
      s.scaled[w] == ChunkStart(nCells, k, w + 1) && s.products.done[w] == ChunkStart(nFaces, k, w + 1)
  }

  /** The whole parallel kernel: whatever the interleaving of all the workers' steps, once they have finished
      sumTemporaries finds the sequential product in every cell. */
  lemma ParallelIsSequential(m: Sparse, nCells: nat, nFaces: nat, k: nat, diagProd: seq<real>, schedule: seq<Worker>,
                             apsi: seq<real>, c: nat)
    requires Problem(m, nFaces, k) && |diagProd| == |apsi| == |m.psi| && c < nCells <= |m.psi|
    requires AllFinished(m, nCells, nFaces, k, KernelRun(m, nCells, nFaces, k, diagProd, schedule))
    ensures var s := KernelRun(m, nCells, nFaces, k, diagProd, schedule);
      && SumAt(s.diagProd[c], s.products, c) == Accumulate(m, Scaled(m, apsi, 0, nCells), 0, nFaces)[c]
      && SumAt(s.diagProd[c], s.products, c) == ProductAt(m, nFaces, c)
  {
    SequentialProduct(m, apsi, nCells, nFaces, c);
    hide ProductAt;
    StagesAreApart(m, nCells, nFaces, k, diagProd, schedule);
    hide KernelRun, ScaleRun, Reached, InitialState, ChunkStart, Scale, SumAt, Accumulate, Scaled;
    AllScaled(m, nCells, k, diagProd, Scalers(schedule), c);
    ChunksAddUp(m, nFaces, k, Adders(schedule), apsi, nCells, c);
  }

  // ----- sumTemporaries -----

  /** sumTemporaries without USE4. */
  method SumTemporaries2(nCells: nat, diagProd: array<real>, t0: array<real>, t1: array<real>, apsi: array<real>)
    requires apsi != diagProd && apsi != t0 && apsi != t1
    requires nCells <= apsi.Length == diagProd.Length == t0.Length == t1.Length
    modifies apsi
    ensures forall c :: 0 <= c < nCells ==> apsi[c] == SumAt(diagProd[c], State([], [t0[..], t1[..]]), c)
    ensures apsi[nCells..] == old(apsi[nCells..])
  {
    hide SumOf2;
    var n := nCells / 4 * 4;
    var c0 := 0;
    while c0 < n
      invariant 0 <= c0 <= n && c0 % 4 == 0
      invariant forall c :: 0 <= c < c0 ==> apsi[c] == SumOf2(diagProd[c], t0[c], t1[c])
      invariant apsi[nCells..] == old(apsi[nCells..])
    {
      apsi[c0] := SumOf2(diagProd[c0], t0[c0], t1[c0]);
      apsi[c0 + 1] := SumOf2(diagProd[c0 + 1], t0[c0 + 1], t1[c0 + 1]);
      apsi[c0 + 2] := SumOf2(diagProd[c0 + 2], t0[c0 + 2], t1[c0 + 2]);
      apsi[c0 + 3] := SumOf2(diagProd[c0 + 3], t0[c0 + 3], t1[c0 + 3]);
      c0 := c0 + 4;
    }
    while c0 < nCells
      invariant n <= c0 <= nCells
      invariant forall c :: 0 <= c < c0 ==> apsi[c] == SumOf2(diagProd[c], t0[c], t1[c])
      invariant apsi[nCells..] == old(apsi[nCells..])
    {
      apsi[c0] := SumOf2(diagProd[c0], t0[c0], t1[c0]);
      c0 := c0 + 1;
    }
  }

  /** sumTemporaries with USE4. */
  method SumTemporaries4(nCells: nat, diagProd: array<real>, t0: array<real>, t1: array<real>, t2: array<real>,
                         t3: array<real>, apsi: array<real>)
    requires apsi != diagProd && apsi != t0 && apsi != t1 && apsi != t2 && apsi != t3
    requires nCells <= apsi.Length == diagProd.Length == t0.Length == t1.Length == t2.Length == t3.Length
    modifies apsi
    ensures forall c :: 0 <= c < nCells ==>
      apsi[c] == SumAt(diagProd[c], State([], [t0[..], t1[..], t2[..], t3[..]]), c)
    ensures apsi[nCells..] == old(apsi[nCells..])
  {
    hide SumOf;
    var n := nCells / 4 * 4;
    var c0 := 0;
    while c0 < n
      invariant 0 <= c0 <= n && c0 % 4 == 0
      invariant forall c :: 0 <= c < c0 ==> apsi[c] == SumOf(diagProd[c], t0[c], t1[c], t2[c], t3[c])
      invariant apsi[nCells..] == old(apsi[nCells..])
    {
      apsi[c0] := SumOf(diagProd[c0], t0[c0], t1[c0], t2[c0], t3[c0]);
      apsi[c0 + 1] := SumOf(diagProd[c0 + 1], t0[c0 + 1], t1[c0 + 1], t2[c0 + 1], t3[c0 + 1]);
      apsi[c0 + 2] := SumOf(diagProd[c0 + 2], t0[c0 + 2], t1[c0 + 2], t2[c0 + 2], t3[c0 + 2]);
      apsi[c0 + 3] := SumOf(diagProd[c0 + 3], t0[c0 + 3], t1[c0 + 3], t2[c0 + 3], t3[c0 + 3]);
      c0 := c0 + 4;
    }
    while c0 < nCells
      invariant n <= c0 <= nCells
      invariant forall c :: 0 <= c < c0 ==> apsi[c] == SumOf(diagProd[c], t0[c], t1[c], t2[c], t3[c])
      invariant apsi[nCells..] == old(apsi[nCells..])
    {
      apsi[c0] := SumOf(diagProd[c0], t0[c0], t1[c0], t2[c0], t3[c0]);
      c0 := c0 + 1;
    }
  }
}
