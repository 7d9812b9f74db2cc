/** The sparse matrices of both matrix-vector kernels: a diagonal, and for each face between cells u and l the entry
    (u, l) in lower and the entry (l, u) in upper. The product with a vector is written as that of a dense matrix. */
module SparseMatrix {

  datatype Sparse = Sparse(
    diag: seq<real>, psi: seq<real>, u: seq<nat>, l: seq<nat>, lower: seq<real>, upper: seq<real>)
  {
    ghost predicate Valid() {
      && |diag| == |psi| && |u| == |l| == |lower| == |upper|
      && (forall f :: 0 <= f < |u| ==> u[f] < |psi| && l[f] < |psi|)
    }
  }

  /** What the first n faces put into entry (r, c). */
  function FaceEntries(m: Sparse, n: nat, r: nat, c: nat): real
    requires m.Valid() && n <= |m.u|
  {
    if n == 0 then 0.0
    else
      FaceEntries(m, n - 1, r, c)
      + (if m.u[n - 1] == r && m.l[n - 1] == c then m.lower[n - 1] else 0.0)
      + (if m.l[n - 1] == r && m.u[n - 1] == c then m.upper[n - 1] else 0.0)
  }

  /** Entry (r, c) of the matrix with the first n faces. */
  function Entry(m: Sparse, n: nat, r: nat, c: nat): real
    requires m.Valid() && n <= |m.u| && r < |m.diag|
  {
    (if r == c then m.diag[r] else 0.0) + FaceEntries(m, n, r, c)
  }

  /** Row r of the matrix times the vector, as far as column k. */
  function RowTimes(m: Sparse, n: nat, r: nat, k: nat): real
    requires m.Valid() && n <= |m.u| && r < |m.diag| && k <= |m.psi|
  {
    if k == 0 then 0.0 else RowTimes(m, n, r, k - 1) + Entry(m, n, r, k - 1) * m.psi[k - 1]
  }

  /** Component r of the product. */
  function ProductAt(m: Sparse, n: nat, r: nat): real
    requires m.Valid() && n <= |m.u| && r < |m.diag|
  {
    RowTimes(m, n, r, |m.psi|)
  }

  lemma Distribute(x: real, y: real, z: real, p: real)
    ensures (x + y + z) * p == x * p + y * p + z * p
  {
  }

  lemma Chosen(b: bool, x: real, p: real)
    ensures (if b then x else 0.0) * p == if b then x * p else 0.0
  {
  }

  /** Without faces there is the diagonal. */
  lemma {:induction false} DiagonalOnly(m: Sparse, r: nat, k: nat)
    requires m.Valid() && r < |m.diag| && k <= |m.psi|
    ensures RowTimes(m, 0, r, k) == if r < k then m.diag[r] * m.psi[r] else 0.0
  {
    if k > 0 {
      DiagonalOnly(m, r, k - 1);
      Chosen(r == k - 1, m.diag[r], m.psi[k - 1]);
      assert Entry(m, 0, r, k - 1) == if r == k - 1 then m.diag[r] else 0.0;
    }
  }

  /** What face f adds to row r as far as column k. */
  function FaceAdds(m: Sparse, f: nat, r: nat, k: nat): real
    requires m.Valid() && f < |m.u|
  {
    (if m.u[f] == r && m.l[f] < k then m.lower[f] * m.psi[m.l[f]] else 0.0)
    + (if m.l[f] == r && m.u[f] < k then m.upper[f] * m.psi[m.u[f]] else 0.0)
  }

  lemma EntryOfOneMore(m: Sparse, n: nat, r: nat, c: nat)
    requires m.Valid() && n < |m.u| && r < |m.diag| && c < |m.psi|
    ensures Entry(m, n + 1, r, c) * m.psi[c]
            == Entry(m, n, r, c) * m.psi[c]
               + (if m.u[n] == r && m.l[n] == c then m.lower[n] * m.psi[c] else 0.0)
               + (if m.l[n] == r && m.u[n] == c then m.upper[n] * m.psi[c] else 0.0)
  {
    var x := if m.u[n] == r && m.l[n] == c then m.lower[n] else 0.0;
    var y := if m.l[n] == r && m.u[n] == c then m.upper[n] else 0.0;
    assert Entry(m, n + 1, r, c) == Entry(m, n, r, c) + x + y;
    Distribute(Entry(m, n, r, c), x, y, m.psi[c]);
    Chosen(m.u[n] == r && m.l[n] == c, m.lower[n], m.psi[c]);
    Chosen(m.l[n] == r && m.u[n] == c, m.upper[n], m.psi[c]);
    hide Entry;
  }

  lemma {:induction false} OneFaceMore(m: Sparse, n: nat, r: nat, k: nat)
    requires m.Valid() && n < |m.u| && r < |m.diag| && k <= |m.psi|
    ensures RowTimes(m, n + 1, r, k) == RowTimes(m, n, r, k) + FaceAdds(m, n, r, k)
  {
    if k > 0 {
      OneFaceMore(m, n, r, k - 1);
      EntryOfOneMore(m, n, r, k - 1);
      hide Entry;
    }
  }

  /** The product grows by what each face adds. */
  lemma ProductOfOneMore(m: Sparse, n: nat, r: nat)
    requires m.Valid() && n < |m.u| && r < |m.diag|
    ensures ProductAt(m, n + 1, r)
            == ProductAt(m, n, r)
               + (if m.u[n] == r then m.lower[n] * m.psi[m.l[n]] else 0.0)
               + (if m.l[n] == r then m.upper[n] * m.psi[m.u[n]] else 0.0)
  {
    hide RowTimes;
    OneFaceMore(m, n, r, |m.psi|);
    assert m.u[n] < |m.psi| && m.l[n] < |m.psi|;
  }

  lemma ProductOfNone(m: Sparse, r: nat)
    requires m.Valid() && r < |m.diag|
    ensures ProductAt(m, 0, r) == m.diag[r] * m.psi[r]
  {
    DiagonalOnly(m, r, |m.psi|);
    hide RowTimes;
  }
}
