/** The main results on dgefa followed by dgesl: exact solutions, which matrices have one, and what info tells. */
module EliminationTheorems {
  import opened Elimination

  /** What dgefa leaves in its array: its loop stops before the last column. */
  function Dgefa(a: seq<Vec>): (f: seq<Vec>)
    requires Square(a) && |a| > 0
    ensures |f| == |a| && Square(f)
  {
    Factored(a, |a| - 1)
  }

  function DgefaPivots(a: seq<Vec>): (p: seq<nat>)
    requires Square(a) && |a| > 0
    ensures |p| == |a| && forall i :: 0 <= i < |p| ==> i <= p[i] < |a|
  {
    Pivots(a, |a| - 1) + [|a| - 1]
  }

  function DgefaInfo(a: seq<Vec>): nat
    requires Square(a) && |a| > 0
  {
    var k := |a| - 1;
    if Dgefa(a)[k][k] == 0.0 then k else InfoAfter(a, k)
  }

  /** What dgesl leaves in its right-hand side. */
  function Dgesl(f: seq<Vec>, ipvt: seq<nat>, b: Vec): (x: Vec)
    requires Square(f) && |b| == |f| == |ipvt| > 0 && RegularTo(f, |f|)
    requires forall i :: 0 <= i < |ipvt| ==> i <= ipvt[i] < |f|
    ensures |x| == |b|
  {
    BackSub(f, Forward(f, ipvt, b, |f| - 1), |f|)
  }

  // ----- The step on the last column, which the loops leave out, would do nothing -----

  lemma LastStepIsIdentity(f: seq<Vec>, k: nat)
    requires Square(f) && |f| == k + 1
    ensures FactorStep(f, k) == f
  {
    assert Pivot(f[k], k, k + 1) == k;
    hide Pivot, Elim, Upper;
    assert Swap(f[k], k, k) == f[k];
    if f[k][k] != 0.0 {
      assert Multipliers(f[k], k) == f[k];
    }
  }

  lemma LastIsAll(a: seq<Vec>)
    requires Square(a) && |a| > 0
    ensures Dgefa(a) == Factored(a, |a|) && DgefaPivots(a) == Pivots(a, |a|) && DgefaInfo(a) == InfoAfter(a, |a|)
  {
    var k := |a| - 1;
    var f := Factored(a, k);
    assert Pivot(f[k], k, k + 1) == k;
    LastStepIsIdentity(f, k);
    hide FactorStep, Elim, Multipliers;
  }

  lemma LastForwardStep(f: seq<Vec>, ipvt: seq<nat>, b: Vec)
    requires Square(f) && |b| == |f| == |ipvt| > 0 && forall i :: 0 <= i < |ipvt| ==> i <= ipvt[i] < |f|
    ensures Forward(f, ipvt, b, |f|) == Forward(f, ipvt, b, |f| - 1)
  {
    hide Forward, Elim;
    var k := |f| - 1;
    ForwardStep(f, ipvt, b, k);
    IdentityStep(Forward(f, ipvt, b, k), k, f[k]);
  }

  lemma ForwardStep(f: seq<Vec>, ipvt: seq<nat>, b: Vec, k: nat)
    requires Square(f) && |b| == |f| && k < |ipvt| && k < |f| && forall i :: 0 <= i <= k ==> i <= ipvt[i] < |f|
    ensures Forward(f, ipvt, b, k + 1) == Elim(Forward(f, ipvt, b, k), k, ipvt[k], f[k])
  {
    hide Elim;
  }

  // ----- Back substitution -----

  function Head(b: Vec, k: nat): (r: Vec)
    ensures |r| == |b|
  {
    seq(|b|, i requires 0 <= i < |b| => if i < k then b[i] else 0.0)
  }

  lemma {:induction false} CombineOfUpper(f: seq<Vec>, z: Vec, k: nat, i: nat)
    requires Square(f) && |z| == |f| && k <= i < |f|
    ensures Combine(Reduced(f, |f|), z, k)[i] == 0.0
  {
    if k > 0 {
      CombineOfUpper(f, z, k - 1, i);
      assert Reduced(f, |f|)[k - 1][i] == 0.0;
    }
  }

  /** z solves what is left when the columns from k on have been dealt with and b holds their unknowns. */
  ghost predicate Solves(f: seq<Vec>, z: Vec, b: Vec, k: nat)
    requires Square(f) && |z| == |b| == |f| && k <= |f|
  {
    Combine(Reduced(f, |f|), z, k) == Head(b, k) && forall j :: k <= j < |b| ==> z[j] == b[j]
  }

  /** One pass of the loop of dgesl. */
  function Substitute(f: seq<Vec>, b: Vec, k: nat): (r: Vec)
    requires Square(f) && |b| == |f| && k < |f| && f[k][k] != 0.0
    ensures |r| == |b|
  {
    var t := b[k] / f[k][k];
    AddScaled(b[k := t], -t, f[k], 0, k)
  }

  lemma SolvedRow(f: seq<Vec>, z: Vec, b: Vec, k: nat, i: nat)
    requires Square(f) && |z| == |b| == |f| && k < |f| && f[k][k] != 0.0 && i < |f|
    ensures Combine(Reduced(f, |f|), z, k + 1)[i] ==
            Combine(Reduced(f, |f|), z, k)[i] + (if i <= k then z[k] * f[k][i] else 0.0)
  {
    assert Reduced(f, |f|)[k] == Upper(f[k], k);
    hide Reduced;
  }

  lemma Cancel(z: real, d: real, b: real)
    requires d != 0.0
    ensures z * d == b <==> z == b / d
  {
  }

  lemma Transpose(c: real, z: real, f: real, b: real)
    ensures c + z * f == b <==> c == AddTimes(b, -z, f)
  {
    assert (-z) * f == -(z * f);
  }

  lemma SubstitutedRow(f: seq<Vec>, z: Vec, b: Vec, k: nat, i: nat)
    requires Square(f) && |z| == |b| == |f| && k < |f| && f[k][k] != 0.0 && i < |f|
    requires z[k] == Substitute(f, b, k)[k]
    ensures Combine(Reduced(f, |f|), z, k + 1)[i] == Head(b, k + 1)[i] <==>
            Combine(Reduced(f, |f|), z, k)[i] == Head(Substitute(f, b, k), k)[i]
  {
    hide Combine, Reduced, AddTimes;
    SolvedRow(f, z, b, k, i);
    if i < k {
      Transpose(Combine(Reduced(f, |f|), z, k)[i], z[k], f[k][i], b[i]);
    } else {
      CombineOfUpper(f, z, k, i);
      Cancel(z[k], f[k][k], b[k]);
    }
  }

  lemma SubstituteSolves(f: seq<Vec>, z: Vec, b: Vec, k: nat)
    requires Square(f) && |z| == |b| == |f| && k < |f| && f[k][k] != 0.0
    ensures Solves(f, z, b, k + 1) <==> Solves(f, z, Substitute(f, b, k), k)
  {
    hide Combine, Reduced;
    var r := Substitute(f, b, k);
    var u := Reduced(f, |f|);
    if z[k] == r[k] {
      forall i | 0 <= i < |f| ensures Combine(u, z, k + 1)[i] == Head(b, k + 1)[i] <==> Combine(u, z, k)[i] == Head(r, k)[i] {
        SubstitutedRow(f, z, b, k, i);
      }
      SameRows(Combine(u, z, k + 1), Head(b, k + 1), Combine(u, z, k), Head(r, k));
    } else {
      SolvedRow(f, z, b, k, k);
      CombineOfUpper(f, z, k, k);
      Cancel(z[k], f[k][k], b[k]);
    }
  }

  lemma SameRows(p: Vec, q: Vec, r: Vec, s: Vec)
    requires |p| == |q| == |r| == |s|
    requires forall i :: 0 <= i < |p| ==> (p[i] == q[i] <==> r[i] == s[i])
    ensures p == q <==> r == s
  {
    if r == s {
      assert forall i :: 0 <= i < |p| ==> p[i] == q[i];
    }
    if p == q {
      assert forall i :: 0 <= i < |p| ==> r[i] == s[i];
    }
  }

  lemma {:induction false} BackSubSolves(f: seq<Vec>, z: Vec, b: Vec, k: nat)
    requires Square(f) && |z| == |b| == |f| && k <= |f| && RegularTo(f, k)
    ensures Solves(f, z, b, k) <==> z == BackSub(f, b, k)
    decreases k
  {
    if k == 0 {
      assert Head(b, 0) == Zeros(|b|);
    } else {
      SubstituteSolves(f, z, b, k - 1);
      BackSubSolves(f, z, Substitute(f, b, k - 1), k - 1);
      hide Solves, AddScaled;
    }
  }

  // ----- dgefa, then dgesl -----

  /** If no diagonal entry that dgefa leaves is zero, then what dgesl computes is the solution of A x = b, and the
      only one. */
  lemma SolvesTheSystem(a: seq<Vec>, b: Vec, x: Vec)
    requires Square(a) && |x| == |b| == |a| > 0 && RegularTo(Dgefa(a), |a|)
    ensures Product(a, x) == b <==> x == Dgesl(Dgefa(a), DgefaPivots(a), b)
  {
    var n, f, p := |a|, Factored(a, |a|), Pivots(a, |a|);
    LastIsAll(a);
    LastForwardStep(f, p, b);
    ForwardSolutions(a, x, b, n);
    var y := Forward(f, p, b, n);
    BackSubSolves(f, x, y, n);
    hide Combine, Reduced, Forward, Factored, Pivots, BackSub;
    assert Head(y, n) == y;
  }

  ghost predicate Singular(a: seq<Vec>)
    requires Square(a)
  {
    exists x: Vec :: |x| == |a| && x != Zeros(|a|) && Product(a, x) == Zeros(|a|)
  }

  lemma {:induction false} CombineOfZeros(a: seq<Vec>, m: nat)
    requires Square(a) && m <= |a|
    ensures Combine(a, Zeros(|a|), m) == Zeros(|a|)
  {
    if m > 0 {
      CombineOfZeros(a, m - 1);
    }
  }

  lemma {:induction false} ForwardOfZeros(f: seq<Vec>, ipvt: seq<nat>, k: nat)
    requires Square(f) && k <= |ipvt| && k <= |f|
    requires forall i :: 0 <= i < k ==> i <= ipvt[i] < |f|
    ensures Forward(f, ipvt, Zeros(|f|), k) == Zeros(|f|)
  {
    if k > 0 {
      ForwardOfZeros(f, ipvt, k - 1);
      ElimOfZeros(|f|, k - 1, ipvt[k - 1], f[k - 1]);
    }
  }

  lemma {:induction false} CombineUnused(a: seq<Vec>, x: Vec, k: nat, m: nat)
    requires Square(a) && |x| == |a| && k <= m <= |a| && forall j :: k <= j < m ==> x[j] == 0.0
    ensures Combine(a, x, m) == Combine(a, x, k)
  {
    if m > k {
      CombineUnused(a, x, k, m - 1);
      assert Combine(a, x, m) == Combine(a, x, m - 1);
    }
  }

  lemma {:induction false} FirstZero(f: seq<Vec>, m: nat) returns (k: nat)
    requires Square(f) && m <= |f| && !RegularTo(f, m)
    ensures k < m && f[k][k] == 0.0 && RegularTo(f, k)
  {
    if RegularTo(f, m - 1) {
      k := m - 1;
    } else {
      k := FirstZero(f, m - 1);
    }
  }

  /** Column k of a triangular matrix whose first zero on the diagonal is there is a combination of those before. */
  lemma KernelVector(f: seq<Vec>, k: nat) returns (z: Vec)
    requires Square(f) && k < |f| && RegularTo(f, k) && f[k][k] == 0.0
    ensures |z| == |f| && z != Zeros(|f|) && Product(Reduced(f, |f|), z) == Zeros(|f|)
  {
    var n := |f|;
    var b := seq(n, i requires 0 <= i < n => if i < k then -f[k][i] else if i == k then 1.0 else 0.0);
    z := BackSub(f, b, k);
    BackSubSolves(f, z, b, k);
    assert z[k] == 1.0;
    var u := Reduced(f, n);
    CombineUnused(u, z, k + 1, n);
    assert u[k] == Upper(f[k], k);
    assert Combine(u, z, k + 1) == Plus(Head(b, k), 1.0, u[k]);
    hide Combine, Reduced, BackSub;
    assert Combine(u, z, k + 1) == Zeros(n);
  }

  /** A zero is left on the diagonal exactly when the matrix given to dgefa is singular. */
  lemma RegularIffNotSingular(a: seq<Vec>)
    requires Square(a) && |a| > 0
    ensures RegularTo(Dgefa(a), |a|) <==> !Singular(a)
  {
    var n, f, p := |a|, Factored(a, |a|), Pivots(a, |a|);
    LastIsAll(a);
    if RegularTo(f, n) {
      forall x: Vec | |x| == n && Product(a, x) == Zeros(n) ensures x == Zeros(n) {
        SolvesTheSystem(a, Zeros(n), x);
        SolvesTheSystem(a, Zeros(n), Zeros(n));
        CombineOfZeros(a, n);
      }
    } else {
      var k := FirstZero(f, n);
      var z := KernelVector(f, k);
      ForwardSolutions(a, z, Zeros(n), n);
      ForwardOfZeros(f, p, n);
    }
  }

  /** Partial pivoting keeps every multiplier at most 1 in absolute value. */
  lemma MultipliersAreSmall(a: seq<Vec>, k: nat, i: nat)
    requires Square(a) && k < i < |a|
    ensures -1.0 <= Dgefa(a)[k][i] <= 1.0
  {
    hide Factored, FactorStep;
    ColumnIsFinal(a, k, |a| - 1);
    FactoredStep(a, k + 1);
    SmallAfterStep(Factored(a, k), k, i);
  }

  lemma SmallAfterStep(f: seq<Vec>, k: nat, i: nat)
    requires Square(f) && k < i < |f|
    ensures Abs(FactorStep(f, k)[k][i]) <= 1.0
  {
    hide Pivot, Elim, Multipliers;
    var v := f[k];
    var l := Pivot(v, k, |f|);
    PivotIsLargest(v, k, |f|);
    if v[l] == 0.0 {
      ZeroPivot(v, k);
    } else {
      SmallMultiplier(Swap(v, k, l), k, i);
    }
  }

  lemma SmallMultiplier(w: Vec, k: nat, i: nat)
    requires k < i < |w| && w[k] != 0.0 && Abs(w[i]) <= Abs(w[k])
    ensures Abs(Multipliers(w, k)[i]) <= 1.0
  {
    Quotient(w[i], w[k]);
    hide Abs;
  }

  lemma Quotient(x: real, p: real)
    requires p != 0.0 && Abs(x) <= Abs(p)
    ensures Abs(-1.0 / p * x) <= 1.0
  {
    QuotientTimes(x, p);
    AtMostOne(-1.0 / p * x, p, x);
  }

  lemma AtMostOne(q: real, p: real, x: real)
    requires 0.0 < Abs(p) && Abs(x) <= Abs(p) && q * p == -x
    ensures Abs(q) <= 1.0
  {
    AbsOfProduct(q, p);
    assert Abs(q * p) == Abs(x);
    hide Abs;
    if Abs(q) > 1.0 {
      Larger(Abs(q), Abs(p));
    }
  }

  lemma QuotientTimes(x: real, p: real)
    requires p != 0.0
    ensures (-1.0 / p * x) * p == -x
  {
    var r := -1.0 / p;
    assert r * p == -1.0;
    assert (r * x) * p == (r * p) * x;
  }

  lemma AbsOfProduct(q: real, p: real)
    ensures Abs(q * p) == Abs(q) * Abs(p)
  {
    assert (-q) * p == -(q * p) && q * (-p) == -(q * p) && (-q) * (-p) == q * p;
    assert q >= 0.0 && p >= 0.0 ==> q * p >= 0.0;
    assert q < 0.0 && p < 0.0 ==> q * p >= 0.0;
    assert q >= 0.0 && p < 0.0 ==> q * p <= 0.0;
    assert q < 0.0 && p >= 0.0 ==> q * p <= 0.0;
  }

  lemma Larger(q: real, p: real)
    requires q > 1.0 && p > 0.0
    ensures q * p > p
  {
    assert (q - 1.0) * p > 0.0;
  }

  // ----- What info tells -----

  /** The pivot chosen at step k is what stays on the diagonal. */
  lemma PivotStays(a: seq<Vec>, k: nat)
    requires Square(a) && k < |a|
    ensures var v := Factored(a, k)[k]; Factored(a, |a|)[k][k] == v[Pivot(v, k, |a|)]
  {
    var v := Factored(a, k)[k];
    ColumnIsFinal(a, k, |a|);
    FactoredStep(a, k + 1);
    if v[Pivot(v, k, |a|)] == 0.0 {
      ZeroPivot(v, k);
    }
    hide Pivot, Elim, Factored;
  }

  lemma InfoStep(a: seq<Vec>, k: nat)
    requires Square(a) && k < |a|
    ensures InfoAfter(a, k + 1) == if Factored(a, |a|)[k][k] == 0.0 then k else InfoAfter(a, k)
  {
    PivotStays(a, k);
    hide Factored, Pivot;
  }

  lemma {:induction false} InfoIsLastZero(a: seq<Vec>, k: nat)
    requires Square(a) && k <= |a|
    ensures var info, f := InfoAfter(a, k), Factored(a, |a|);
      && (info != 0 ==> f[info][info] == 0.0)
      && (forall j :: info < j < k ==> f[j][j] != 0.0)
  {
    hide Factored;
    if k > 0 {
      hide InfoAfter;
      InfoIsLastZero(a, k - 1);
      InfoStep(a, k - 1);
    }
  }

  lemma FirstDiagonal(a: seq<Vec>)
    requires Square(a) && |a| > 0
    ensures Factored(a, |a|)[0][0] == 0.0 <==> a[0] == Zeros(|a|)
  {
    PivotStays(a, 0);
    assert Factored(a, 0) == a;
    hide Factored;
    if a[0][Pivot(a[0], 0, |a|)] == 0.0 {
      ZeroPivot(a[0], 0);
    }
  }

  /** A zero info does not promise a regular matrix: a zero pivot in the first column also reports 0. The promise
      holds exactly when the first column is not zero. */
  lemma SingularIffReported(a: seq<Vec>)
    requires Square(a) && |a| > 0
    ensures Singular(a) <==> DgefaInfo(a) != 0 || a[0] == Zeros(|a|)
  {
    hide *;
    var f, info := Factored(a, |a|), DgefaInfo(a);
    LastIsAll(a);
    InfoIsLastZero(a, |a|);
    RegularIffNotSingular(a);
    FirstDiagonal(a);
    RegularBeyond(f, info);
  }

  lemma RegularBeyond(f: seq<Vec>, info: nat)
    requires Square(f) && info < |f| && (info != 0 ==> f[info][info] == 0.0)
    requires forall j :: info < j < |f| ==> f[j][j] != 0.0
    ensures RegularTo(f, |f|) <==> info == 0 && f[0][0] != 0.0
  {
  }

  lemma ZeroMatrixIsNotReported()
    ensures var a := [[0.0]]; Square(a) && DgefaInfo(a) == 0 && Singular(a)
  {
    var a := [[0.0]];
    assert a[0] == Zeros(1);
    SingularIffReported(a);
  }

  // ----- The shipped program -----

  function Ones(n: nat): (x: Vec)
    ensures |x| == n && forall i :: 0 <= i < n ==> x[i] == 1.0
  {
    seq(n, _ => 1.0)
  }

  /** matgen makes every entry of b the sum of its row of a, so start returns 1 whatever the regular matrix. */
  lemma RowSumsGiveOnes(a: seq<Vec>, b: Vec)
    requires Square(a) && |b| == |a| > 0 && RegularTo(Dgefa(a), |a|)
    requires forall i :: 0 <= i < |a| ==> b[i] == RowSum(a, Ones(|a|), i, |a|)
    ensures Dgesl(Dgefa(a), DgefaPivots(a), b) == Ones(|a|)
  {
    hide Combine, RowSum, Dgefa, DgefaPivots, Dgesl, RegularTo;
    var x := Ones(|a|);
    forall i | 0 <= i < |a| ensures Product(a, x)[i] == b[i] {
      CombineByRows(a, x, i, |a|);
    }
    SolvesTheSystem(a, b, x);
  }
}
