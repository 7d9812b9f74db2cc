/** The sparse matrix-vector product of CFD_Lite_Pipelined: two faces at a time, with forwarding in place of rereading,
    against the face-by-face reference. Addition and multiplication are any two operations, so the results are equal
    bit for bit. */
module ForwardingKernel {
  import opened SparseMatrix

  /** The arrays sent to the kernel, at their full capacity, and the operations. */
  datatype Matrix<!V> = Matrix(
    diag: seq<V>, psi: seq<V>, u: seq<nat>, l: seq<nat>, lower: seq<V>, upper: seq<V>,
    add: (V, V) -> V, mul: (V, V) -> V)
  {
    ghost predicate Valid() {
      && |diag| == |psi| && |diag| % 4 == 0
      && |u| == |l| == |lower| == |upper| && |u| % 2 == 0
      && (forall f :: 0 <= f < |u| ==> u[f] < |psi| && l[f] < |psi|)
    }
  }

  // ----- The reference -----

  function Scaled<V>(m: Matrix<V>, a: seq<V>, n: nat): (r: seq<V>)
    requires m.Valid() && |a| == |m.psi| && n <= |a|
    ensures |r| == |a|
  {
    if n == 0 then a else Scaled(m, a, n - 1)[n - 1 := m.mul(m.diag[n - 1], m.psi[n - 1])]
  }

  function Face<V>(m: Matrix<V>, a: seq<V>, f: nat): (r: seq<V>)
    requires m.Valid() && |a| == |m.psi| && f < |m.u|
    ensures |r| == |a|
  {
    var u, l := m.u[f], m.l[f];
    var b := a[u := m.add(a[u], m.mul(m.lower[f], m.psi[l]))];
    b[l := m.add(b[l], m.mul(m.upper[f], m.psi[u]))]
  }

  function Faces<V>(m: Matrix<V>, a: seq<V>, n: nat): (r: seq<V>)
    requires m.Valid() && |a| == |m.psi| && n <= |m.u|
    ensures |r| == |a|
  {
    if n == 0 then a else Face(m, Faces(m, a, n - 1), n - 1)
  }

  /** refAMulMatVec. */
  method Reference<V>(m: Matrix<V>, a: array<V>, nCells: nat, nFaces: nat)
    requires m.Valid() && a.Length == |m.psi| && nCells <= |m.psi| && nFaces <= |m.u|
    modifies a
    ensures a[..] == Faces(m, Scaled(m, old(a[..]), nCells), nFaces)
  {
    var cell := 0;
    while cell < nCells
      invariant 0 <= cell <= nCells && a[..] == Scaled(m, old(a[..]), cell)
    {
      a[cell] := m.mul(m.diag[cell], m.psi[cell]);
      cell := cell + 1;
    }
    ghost var b := a[..];
    var face := 0;
    while face < nFaces
      invariant 0 <= face <= nFaces && a[..] == Faces(m, b, face)
    {
      var u, l := m.u[face], m.l[face];
      a[u] := m.add(a[u], m.mul(m.lower[face], m.psi[l]));
      a[l] := m.add(a[l], m.mul(m.upper[face], m.psi[u]));
      face := face + 1;
    }
  }

  // ----- The kernel -----

  function RoundUp4(n: nat): (r: nat)
    ensures n <= r < n + 4 && r % 4 == 0
  {
    (n + 3) / 4 * 4
  }

  function RoundUp2(n: nat): (r: nat)
    ensures n <= r < n + 2 && r % 2 == 0
  {
    (n + 1) / 2 * 2
  }

  /** scaleEntries: four cells at a time, so also the cells up to the next multiple of four. */
  method ScaleEntries<V>(m: Matrix<V>, a: array<V>, nCells: nat)
    requires m.Valid() && a.Length == |m.psi| && nCells <= |m.psi|
    modifies a
    ensures RoundUp4(nCells) <= |m.psi| && a[..] == Scaled(m, old(a[..]), RoundUp4(nCells))
  {
    var idx := 0;
    assert Scaled(m, old(a[..]), 0) == a[..];
    hide Scaled;
    while idx < nCells
      invariant idx % 4 == 0 && 0 <= idx <= RoundUp4(nCells) <= |m.psi|
      invariant a[..] == Scaled(m, old(a[..]), idx)
    {
      var p0 := m.mul(m.diag[idx], m.psi[idx]);
      var p1 := m.mul(m.diag[idx + 1], m.psi[idx + 1]);
      var p2 := m.mul(m.diag[idx + 2], m.psi[idx + 2]);
      var p3 := m.mul(m.diag[idx + 3], m.psi[idx + 3]);
      FourCells(m, old(a[..]), idx);
      a[idx] := p0;
      a[idx + 1] := p1;
      a[idx + 2] := p2;
      a[idx + 3] := p3;
      idx := idx + 4;
    }
  }

  lemma FourCells<V>(m: Matrix<V>, a: seq<V>, n: nat)
    requires m.Valid() && |a| == |m.psi| && n + 4 <= |a|
    ensures Scaled(m, a, n + 4) ==
            Scaled(m, a, n)[n := m.mul(m.diag[n], m.psi[n])][n + 1 := m.mul(m.diag[n + 1], m.psi[n + 1])]
              [n + 2 := m.mul(m.diag[n + 2], m.psi[n + 2])][n + 3 := m.mul(m.diag[n + 3], m.psi[n + 3])]
  {
    var s1, s2, s3 := Scaled(m, a, n + 1), Scaled(m, a, n + 2), Scaled(m, a, n + 3);
    assert s2 == s1[n + 1 := m.mul(m.diag[n + 1], m.psi[n + 1])];
    assert s3 == s2[n + 2 := m.mul(m.diag[n + 2], m.psi[n + 2])];
  }

  /** One pass of productStage: all four entries are read first, and a value that an earlier write of the same pass
      changes is forwarded to where it is needed. Whichever of the indices coincide, it is two faces in turn. */
  method PairOfFaces<V(==)>(m: Matrix<V>, a: array<V>, idx: nat)
    requires m.Valid() && a.Length == |m.psi| && idx + 1 < |m.u|
    modifies a
    ensures a[..] == Face(m, Face(m, old(a[..]), idx), idx + 1)
  {
    var u0, l0, u1, l1 := m.u[idx], m.l[idx], m.u[idx + 1], m.l[idx + 1];
    var pu0, pl0 := m.mul(m.lower[idx], m.psi[l0]), m.mul(m.upper[idx], m.psi[u0]);
    var pu1, pl1 := m.mul(m.lower[idx + 1], m.psi[l1]), m.mul(m.upper[idx + 1], m.psi[u1]);
    var au0, al0, au1, al1 := a[u0], a[l0], a[u1], a[l1];
    var c01, c02, c03 := u0 == l0, u0 == u1, u0 == l1;
    var c12, c13, c23 := l0 == u1, l0 == l1, u1 == l1;

    var x0 := m.add(au0, pu0);

    var x1_0 := if c01 then x0 else al0;
    var x1 := m.add(x1_0, pl0);

    var x2_0 := if c02 then x0 else au1;
    var x2_1 := if c12 then x1 else x2_0;
    var x2 := m.add(x2_1, pu1);

    var x3_0 := if c03 then x0 else al1;
    var x3_1 := if c13 then x1 else x3_0;
    var x3_2 := if c23 then x2 else x3_1;
    var x3 := m.add(x3_2, pl1);

    a[u0] := x0;
    a[l0] := x1;
    a[u1] := x2;
    a[l1] := x3;
  }

  /** productStage: two faces at a time, so also the face that makes their number even. */
  method ProductStage<V(==)>(m: Matrix<V>, a: array<V>, nFaces: nat)
    requires m.Valid() && a.Length == |m.psi| && nFaces <= |m.u|
    modifies a
    ensures RoundUp2(nFaces) <= |m.u| && a[..] == Faces(m, old(a[..]), RoundUp2(nFaces))
  {
    hide Face;
    var idx := 0;
    while idx < nFaces
      invariant idx % 2 == 0 && 0 <= idx <= RoundUp2(nFaces) <= |m.u|
      invariant a[..] == Faces(m, old(a[..]), idx)
    {
      PairOfFaces(m, a, idx);
      assert Faces(m, old(a[..]), idx + 2) == Face(m, Faces(m, old(a[..]), idx + 1), idx + 1);
      idx := idx + 2;
    }
  }

  method AMulMatVec<V(==)>(m: Matrix<V>, a: array<V>, nCells: nat, nFaces: nat)
    requires m.Valid() && a.Length == |m.psi| && nCells <= |m.psi| && nFaces <= |m.u|
    modifies a
    ensures RoundUp4(nCells) <= |m.psi| && RoundUp2(nFaces) <= |m.u|
    ensures a[..] == Faces(m, Scaled(m, old(a[..]), RoundUp4(nCells)), RoundUp2(nFaces))
  {
    ScaleEntries(m, a, nCells);
    ProductStage(m, a, nFaces);
  }

  // ----- When the kernel meets the reference -----

  /** The entries of the cells of the problem. */
  function Cells<V>(a: seq<V>, n: nat): seq<V>
    requires n <= |a|
  {
    a[..n]
  }

  ghost predicate FacesInside<V>(m: Matrix<V>, nCells: nat, n: nat)
    requires m.Valid() && n <= |m.u|
  {
    forall f :: 0 <= f < n ==> m.u[f] < nCells && m.l[f] < nCells
  }

  /** Faces that join cells of the problem do not see the cells beyond it. */
  lemma {:induction false} FacesOfSame<V>(m: Matrix<V>, a: seq<V>, b: seq<V>, nCells: nat, n: nat)
    requires m.Valid() && |a| == |b| == |m.psi| && nCells <= |a| && n <= |m.u|
    requires FacesInside(m, nCells, n) && Cells(a, nCells) == Cells(b, nCells)
    ensures Cells(Faces(m, a, n), nCells) == Cells(Faces(m, b, n), nCells)
  {
    hide Face, Cells;
    if n > 0 {
      FacesOfSame(m, a, b, nCells, n - 1);
      FaceOfSame(m, Faces(m, a, n - 1), Faces(m, b, n - 1), nCells, n - 1);
    }
  }

  lemma FaceOfSame<V>(m: Matrix<V>, a: seq<V>, b: seq<V>, nCells: nat, f: nat)
    requires m.Valid() && |a| == |b| == |m.psi| && nCells <= |a| && f < |m.u|
    requires m.u[f] < nCells && m.l[f] < nCells && Cells(a, nCells) == Cells(b, nCells)
    ensures Cells(Face(m, a, f), nCells) == Cells(Face(m, b, f), nCells)
  {
    var c, d := Face(m, a, f), Face(m, b, f);
    forall i | 0 <= i < nCells ensures c[i] == d[i] {
      assert a[..nCells][i] == b[..nCells][i];
      assert a[..nCells][m.u[f]] == b[..nCells][m.u[f]] && a[..nCells][m.l[f]] == b[..nCells][m.l[f]];
    }
  }

  lemma {:induction false} ScaledPrefix<V>(m: Matrix<V>, a: seq<V>, n: nat, k: nat)
    requires m.Valid() && |a| == |m.psi| && n <= k <= |a|
    ensures Cells(Scaled(m, a, k), n) == Cells(Scaled(m, a, n), n)
  {
    if k > n {
      ScaledPrefix(m, a, n, k - 1);
    }
  }

  lemma {:induction false} ScaledForgets<V>(m: Matrix<V>, a: seq<V>, b: seq<V>, n: nat)
    requires m.Valid() && |a| == |b| == |m.psi| && n <= |a|
    ensures Cells(Scaled(m, a, n), n) == Cells(Scaled(m, b, n), n)
  {
    if n > 0 {
      ScaledForgets(m, a, b, n - 1);
      var c, d := Scaled(m, a, n), Scaled(m, b, n);
      assert c[..n] == Scaled(m, a, n - 1)[..n - 1] + [c[n - 1]];
      assert d[..n] == Scaled(m, b, n - 1)[..n - 1] + [d[n - 1]];
    }
  }

  lemma CellsMatch<V>(m: Matrix<V>, a: seq<V>, b: seq<V>, n: nat, k: nat)
    requires m.Valid() && |a| == |b| == |m.psi| && n <= k <= |a|
    ensures Cells(Scaled(m, a, k), n) == Cells(Scaled(m, b, n), n)
  {
    ScaledPrefix(m, a, n, k);
    ScaledForgets(m, a, b, n);
    hide *;
  }

  /** Scaling more cells than the problem has changes nothing for its cells. */
  lemma MoreCells<V>(m: Matrix<V>, a: seq<V>, b: seq<V>, nCells: nat, cells: nat, faces: nat)
    requires m.Valid() && |a| == |b| == |m.psi| && nCells <= cells <= |a| && faces <= |m.u|
    requires FacesInside(m, nCells, faces)
    ensures Cells(Faces(m, Scaled(m, a, cells), faces), nCells) == Cells(Faces(m, Scaled(m, b, nCells), faces), nCells)
  {
    hide *;
    CellsMatch(m, a, b, nCells, cells);
    FacesOfSame(m, Scaled(m, a, cells), Scaled(m, b, nCells), nCells, faces);
  }

  lemma RoundEven(n: nat)
    requires n % 2 == 0
    ensures RoundUp2(n) == n
  {
  }

  lemma RoundOdd(n: nat)
    requires n % 2 == 1
    ensures RoundUp2(n) == n + 1
  {
  }

  /** What AMulMatVec leaves in the cells of the problem. */
  function Kernel<V>(m: Matrix<V>, a: seq<V>, nCells: nat, nFaces: nat): seq<V>
    requires m.Valid() && |a| == |m.psi| && RoundUp4(nCells) <= |m.psi| && RoundUp2(nFaces) <= |m.u|
  {
    Cells(Faces(m, Scaled(m, a, RoundUp4(nCells)), RoundUp2(nFaces)), nCells)
  }

  /** For an even number of faces and any number of cells, the cells of the problem end up as in the reference,
      whatever was in either array before. */
  lemma EvenFacesMatch<V>(m: Matrix<V>, a: seq<V>, b: seq<V>, nCells: nat, nFaces: nat)
    requires m.Valid() && |a| == |b| == |m.psi| && RoundUp4(nCells) <= |m.psi| && RoundUp2(nFaces) <= |m.u|
    requires nFaces % 2 == 0 && FacesInside(m, nCells, nFaces)
    ensures Kernel(m, a, nCells, nFaces) == Cells(Faces(m, Scaled(m, b, nCells), nFaces), nCells)
  {
    RoundEven(nFaces);
    hide RoundUp2, RoundUp4, Faces, Scaled, Cells;
    MoreCells(m, a, b, nCells, RoundUp4(nCells), nFaces);
  }

  lemma NextFace<V>(m: Matrix<V>, a: seq<V>, n: nat)
    requires m.Valid() && |a| == |m.psi| && n < |m.u|
    ensures Faces(m, a, n + 1) == Face(m, Faces(m, a, n), n)
  {
  }

  /** For an odd number the kernel takes one face more, whatever its arrays hold there. */
  lemma OddFacesTakeOneMore<V>(m: Matrix<V>, a: seq<V>, b: seq<V>, nCells: nat, nFaces: nat)
    requires m.Valid() && |a| == |b| == |m.psi| && RoundUp4(nCells) <= |m.psi| && RoundUp2(nFaces) <= |m.u|
    requires nFaces % 2 == 1 && nFaces < |m.u| && FacesInside(m, nCells, nFaces + 1)
    ensures Kernel(m, a, nCells, nFaces) == Cells(Face(m, Faces(m, Scaled(m, b, nCells), nFaces), nFaces), nCells)
  {
    hide RoundUp2, RoundUp4, Faces, Face, Scaled, Cells, FacesInside;
    RoundOdd(nFaces);
    NextFace(m, Scaled(m, b, nCells), nFaces);
    MoreCells(m, a, b, nCells, RoundUp4(nCells), nFaces + 1);
  }

  /** On the first problem the arrays hold zeros there, and a face of zeros changes nothing: then an odd number matches
      as well. On a later one they hold what an earlier, larger problem has left. */
  lemma ZeroFaceMatches<V>(m: Matrix<V>, a: seq<V>, b: seq<V>, nCells: nat, nFaces: nat)
    requires m.Valid() && |a| == |b| == |m.psi| && RoundUp4(nCells) <= |m.psi| && RoundUp2(nFaces) <= |m.u|
    requires nFaces % 2 == 1 && nFaces < |m.u| && FacesInside(m, nCells, nFaces + 1)
    requires forall x, y :: m.add(x, m.mul(m.lower[nFaces], y)) == x && m.add(x, m.mul(m.upper[nFaces], y)) == x
    ensures Kernel(m, a, nCells, nFaces) == Cells(Faces(m, Scaled(m, b, nCells), nFaces), nCells)
  {
    OddFacesTakeOneMore(m, a, b, nCells, nFaces);
    var before := Faces(m, Scaled(m, b, nCells), nFaces);
    assert Face(m, before, nFaces) == before;
    hide *;
  }

  // ----- The exact condition -----

  /** On all data of the given size the kernel leaves the reference's cells, whatever lies beyond them and was in
      the arrays before. */
  ghost predicate Matches(nCells: nat, nFaces: nat) {
    forall m: Matrix<int>, a: seq<int>, b: seq<int> ::
      Usable(m, a, b, nCells, nFaces) ==>
        Kernel(m, a, nCells, nFaces) == Cells(Faces(m, Scaled(m, b, nCells), nFaces), nCells)
  }

  ghost predicate Usable<V>(m: Matrix<V>, a: seq<V>, b: seq<V>, nCells: nat, nFaces: nat) {
    && m.Valid() && |a| == |b| == |m.psi| && RoundUp4(nCells) <= |m.psi| && RoundUp2(nFaces) <= |m.u|
    && FacesInside(m, nCells, RoundUp2(nFaces))
  }

  /** All entries are 1, and every face joins cell 0 to itself. */
  function Loops(cells: nat, faces: nat): Matrix<int> {
    Matrix(seq(cells, _ => 1), seq(cells, _ => 1), seq(faces, _ => 0), seq(faces, _ => 0),
           seq(faces, _ => 1), seq(faces, _ => 1), (x, y) => x + y, (x, y) => x * y)
  }

  lemma LoopsAreValid(cells: nat, faces: nat)
    requires cells % 4 == 0 && cells > 0 && faces % 2 == 0
    ensures Loops(cells, faces).Valid()
  {
  }

  lemma {:induction false} LoopsScaled(cells: nat, faces: nat, a: seq<int>, n: nat)
    requires Loops(cells, faces).Valid() && |a| == cells && 0 < n <= cells
    ensures Scaled(Loops(cells, faces), a, n)[0] == 1
  {
    if n > 1 {
      LoopsScaled(cells, faces, a, n - 1);
    }
  }

  /** Each face adds 2 to cell 0. */
  lemma {:induction false} LoopsAdded(cells: nat, faces: nat, a: seq<int>, n: nat)
    requires Loops(cells, faces).Valid() && |a| == cells > 0 && n <= faces
    ensures Faces(Loops(cells, faces), a, n)[0] == a[0] + 2 * n
  {
    if n > 0 {
      LoopsAdded(cells, faces, a, n - 1);
    }
  }

  /** For every odd number of faces there are data, such as an earlier problem may have left in the arrays, on which the
      face that the kernel takes in too many shows. */
  lemma OddFacesDiffer(nCells: nat, nFaces: nat, a: seq<int>) returns (m: Matrix<int>)
    requires nCells > 0 && nFaces % 2 == 1 && |a| == RoundUp4(nCells)
    ensures Usable(m, a, a, nCells, nFaces)
    ensures Kernel(m, a, nCells, nFaces)[0] == Cells(Faces(m, Scaled(m, a, nCells), nFaces), nCells)[0] + 2
  {
    var cells, faces := RoundUp4(nCells), RoundUp2(nFaces);
    m := Loops(cells, faces);
    LoopsAreValid(cells, faces);
    RoundOdd(nFaces);
    LoopsScaled(cells, faces, a, cells);
    LoopsScaled(cells, faces, a, nCells);
    LoopsAdded(cells, faces, Scaled(m, a, cells), faces);
    LoopsAdded(cells, faces, Scaled(m, a, nCells), nFaces);
    assert m.u[..] == m.l[..] == seq(faces, _ => 0);
    hide Scaled, Faces, RoundUp2, RoundUp4;
  }

  /** Of no cells there is nothing to compare. */
  lemma NoCellsMatch(nFaces: nat)
    ensures Matches(0, nFaces)
  {
    hide Faces, Scaled;
  }

  /** The kernel does what the reference does exactly for even numbers of faces. */
  lemma MatchesIffEven(nCells: nat, nFaces: nat)
    ensures Matches(nCells, nFaces) <==> nFaces % 2 == 0 || nCells == 0
  {
    if nCells == 0 {
      NoCellsMatch(nFaces);
    } else if nFaces % 2 == 0 {
      RoundEven(nFaces);
      forall m: Matrix<int>, a: seq<int>, b: seq<int> | Usable(m, a, b, nCells, nFaces)
        ensures Kernel(m, a, nCells, nFaces) == Cells(Faces(m, Scaled(m, b, nCells), nFaces), nCells)
      {
        EvenFacesMatch(m, a, b, nCells, nFaces);
      }
    } else {
      var a := seq(RoundUp4(nCells), _ => 0);
      var m := OddFacesDiffer(nCells, nFaces, a);
      hide Kernel, Usable, Faces, Scaled, RoundUp2, RoundUp4;
      assert Usable(m, a, a, nCells, nFaces);
    }
  }

  // ----- The product, over exact reals -----

  /** Addition and multiplication of reals. */
  ghost predicate Arithmetic(m: Matrix<real>) {
    forall x, y :: m.add(x, y) == x + y && m.mul(x, y) == x * y
  }

  function AsSparse(m: Matrix<real>): Sparse {
    Sparse(m.diag, m.psi, m.u, m.l, m.lower, m.upper)
  }

  lemma FaceAt(m: Matrix<real>, a: seq<real>, f: nat, r: nat)
    requires m.Valid() && Arithmetic(m) && |a| == |m.psi| && f < |m.u| && r < |a|
    ensures Face(m, a, f)[r]
            == a[r] + (if m.u[f] == r then m.lower[f] * m.psi[m.l[f]] else 0.0)
                    + (if m.l[f] == r then m.upper[f] * m.psi[m.u[f]] else 0.0)
  {
  }

  lemma {:induction false} ScaledAt(m: Matrix<real>, a: seq<real>, n: nat, r: nat)
    requires m.Valid() && Arithmetic(m) && |a| == |m.psi| && r < n <= |a|
    ensures Scaled(m, a, n)[r] == m.diag[r] * m.psi[r]
  {
    if r < n - 1 {
      ScaledAt(m, a, n - 1, r);
    }
  }

  /** The reference computes the product of the matrix whose entries are the diagonal, lower and upper. */
  lemma {:induction false} ReferenceIsProduct(m: Matrix<real>, a: seq<real>, nCells: nat, nFaces: nat, r: nat)
    requires m.Valid() && Arithmetic(m) && |a| == |m.psi| && r < nCells <= |a| && nFaces <= |m.u|
    ensures AsSparse(m).Valid() && Faces(m, Scaled(m, a, nCells), nFaces)[r] == ProductAt(AsSparse(m), nFaces, r)
  {
    hide Scaled, Face, ProductAt, Arithmetic;
    if nFaces == 0 {
      ScaledAt(m, a, nCells, r);
      ProductOfNone(AsSparse(m), r);
    } else {
      ReferenceIsProduct(m, a, nCells, nFaces - 1, r);
      FaceAt(m, Faces(m, Scaled(m, a, nCells), nFaces - 1), nFaces - 1, r);
      ProductOfOneMore(AsSparse(m), nFaces - 1, r);
    }
  }

  /** So does the kernel, with the faces up to the next even number. */
  lemma KernelIsProduct(m: Matrix<real>, a: seq<real>, nCells: nat, nFaces: nat, r: nat)
    requires m.Valid() && Arithmetic(m) && |a| == |m.psi| && RoundUp4(nCells) <= |m.psi| && RoundUp2(nFaces) <= |m.u| && r < nCells
    ensures AsSparse(m).Valid() && Kernel(m, a, nCells, nFaces)[r] == ProductAt(AsSparse(m), RoundUp2(nFaces), r)
  {
    hide Scaled, Faces, ProductAt, Arithmetic, RoundUp2, RoundUp4;
    ReferenceIsProduct(m, a, RoundUp4(nCells), RoundUp2(nFaces), r);
  }
}
