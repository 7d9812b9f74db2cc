/** Gaussian elimination with partial pivoting as the LINPACK routines dgefa and dgesl (job 0) do it, over exact
    reals. A matrix is the sequence of its columns, so that one step of the elimination is one linear map applied
    to every column and to the right-hand side. */
module Elimination {

  type Vec = seq<real>

  ghost predicate Square(a: seq<Vec>) {
    forall j :: 0 <= j < |a| ==> |a[j]| == |a|
  }

  function Abs(x: real): real {
    if x < 0.0 then -x else x
  }

  /** idamax: of the rows k..m-1 of a column, the first with the largest absolute value. */
  function Pivot(v: Vec, k: nat, m: nat): (l: nat)
    requires k < m <= |v|
    ensures k <= l < m
  {
    if m == k + 1 then k
    else
      var l := Pivot(v, k, m - 1);
      if Abs(v[m - 1]) > Abs(v[l]) then m - 1 else l
  }

  lemma {:induction false} PivotIsLargest(v: Vec, k: nat, m: nat)
    requires k < m <= |v|
    ensures forall i :: k <= i < m ==> Abs(v[i]) <= Abs(v[Pivot(v, k, m)])
    ensures forall i :: k <= i < Pivot(v, k, m) ==> Abs(v[i]) < Abs(v[Pivot(v, k, m)])
  {
    if m > k + 1 {
      PivotIsLargest(v, k, m - 1);
    }
  }

  /** In numbers: every entry is between the pivot and its negative, and one before the pivot is strictly so. */
  lemma PivotBounds(v: Vec, k: nat, m: nat)
    requires k < m <= |v|
    ensures var p := v[Pivot(v, k, m)];
      && (forall i :: k <= i < m ==> if p >= 0.0 then -p <= v[i] <= p else p <= v[i] <= -p)
      && (forall i :: k <= i < Pivot(v, k, m) ==> if p >= 0.0 then -p < v[i] < p else p < v[i] < -p)
  {
    PivotIsLargest(v, k, m);
    hide Pivot;
    var l := Pivot(v, k, m);
    forall i | k <= i < m
      ensures if v[l] >= 0.0 then -v[l] <= v[i] <= v[l] else v[l] <= v[i] <= -v[l]
      ensures i < l ==> if v[l] >= 0.0 then -v[l] < v[i] < v[l] else v[l] < v[i] < -v[l]
    {
      assert Abs(v[i]) <= Abs(v[l]);
    }
  }

  function Swap(v: Vec, k: nat, l: nat): (w: Vec)
    requires k < |v| && l < |v|
    ensures |w| == |v|
  {
    v[k := v[l]][l := v[k]]
  }

  /** One entry of dscal. */
  function Times(da: real, x: real): real {
    da * x
  }

  /** dscal on the rows below k, with the factor dgefa passes to it. */
  function Multipliers(v: Vec, k: nat): (c: Vec)
    requires k < |v| && v[k] != 0.0
    ensures |c| == |v|
  {
    seq(|v|, i requires 0 <= i < |v| => if i <= k then v[i] else Times(-1.0 / v[k], v[i]))
  }

  /** One entry of daxpy. */
  function AddTimes(y: real, da: real, x: real): real {
    y + da * x
  }

  /** daxpy on the rows lo..hi-1. */
  function AddScaled(v: Vec, t: real, c: Vec, lo: nat, hi: nat): (w: Vec)
    requires |c| == |v|
    ensures |w| == |v|
  {
    seq(|v|, i requires 0 <= i < |v| => if lo <= i < hi then AddTimes(v[i], t, c[i]) else v[i])
  }

  /** What step k does to a column right of k, and to the right-hand side: interchange, then eliminate. */
  function Elim(v: Vec, k: nat, l: nat, c: Vec): (w: Vec)
    requires k <= l < |v| == |c|
    ensures |w| == |v|
  {
    AddScaled(Swap(v, k, l), v[l], c, k + 1, |v|)
  }

  // ----- dgefa -----

  function FactorStep(a: seq<Vec>, k: nat): (r: seq<Vec>)
    requires Square(a) && k < |a|
    ensures |r| == |a| && Square(r)
  {
    var l := Pivot(a[k], k, |a|);
    if a[k][l] == 0.0 then a
    else
      var c := Multipliers(Swap(a[k], k, l), k);
      seq(|a|, j requires 0 <= j < |a| => if j < k then a[j] else if j == k then c else Elim(a[j], k, l, c))
  }

  /** The array after k steps. */
  function Factored(a: seq<Vec>, k: nat): (r: seq<Vec>)
    requires Square(a) && k <= |a|
    ensures |r| == |a| && Square(r)
  {
    if k == 0 then a else FactorStep(Factored(a, k - 1), k - 1)
  }

  /** ipvt after k steps. */
  function Pivots(a: seq<Vec>, k: nat): (p: seq<nat>)
    requires Square(a) && k <= |a|
    ensures |p| == k && forall i :: 0 <= i < k ==> i <= p[i] < |a|
  {
    if k == 0 then [] else Pivots(a, k - 1) + [Pivot(Factored(a, k - 1)[k - 1], k - 1, |a|)]
  }

  /** *info after k steps, 0 at the start. */
  function InfoAfter(a: seq<Vec>, k: nat): (info: nat)
    requires Square(a) && k <= |a|
    ensures info == 0 || info < k
  {
    if k == 0 then 0
    else
      var v := Factored(a, k - 1)[k - 1];
      if v[Pivot(v, k - 1, |a|)] == 0.0 then k - 1 else InfoAfter(a, k - 1)
  }

  // ----- dgesl, job 0 -----

  function Forward(f: seq<Vec>, ipvt: seq<nat>, b: Vec, k: nat): (r: Vec)
    requires Square(f) && |b| == |f| && k <= |ipvt| && k <= |f|
    requires forall i :: 0 <= i < k ==> i <= ipvt[i] < |f|
    ensures |r| == |b|
  {
    if k == 0 then b else Elim(Forward(f, ipvt, b, k - 1), k - 1, ipvt[k - 1], f[k - 1])
  }

  ghost predicate RegularTo(f: seq<Vec>, k: nat)
    requires Square(f) && k <= |f|
  {
    forall j :: 0 <= j < k ==> f[j][j] != 0.0
  }

  /** Back substitution through the columns k-1 down to 0. */
  function BackSub(f: seq<Vec>, b: Vec, k: nat): (x: Vec)
    requires Square(f) && |b| == |f| && k <= |f| && RegularTo(f, k)
    ensures |x| == |b|
    decreases k
  {
    if k == 0 then b
    else
      var t := b[k - 1] / f[k - 1][k - 1];
      BackSub(f, AddScaled(b[k - 1 := t], -t, f[k - 1], 0, k - 1), k - 1)
  }

  // ----- What is meant by a solution -----

  function Zeros(n: nat): (z: Vec)
    ensures |z| == n && forall i :: 0 <= i < n ==> z[i] == 0.0
  {
    seq(n, _ => 0.0)
  }

  function Plus(u: Vec, s: real, v: Vec): (w: Vec)
    requires |u| == |v|
    ensures |w| == |u| && forall i :: 0 <= i < |u| ==> w[i] == u[i] + s * v[i]
  {
    seq(|u|, i requires 0 <= i < |u| => u[i] + s * v[i])
  }

  /** The sum of the first m columns, column j taken x[j] times: the product A x, for m == |a|. */
  function Combine(a: seq<Vec>, x: Vec, m: nat): (r: Vec)
    requires Square(a) && |x| == |a| && m <= |a|
    ensures |r| == |a|
  {
    if m == 0 then Zeros(|a|) else Plus(Combine(a, x, m - 1), x[m - 1], a[m - 1])
  }

  function Product(a: seq<Vec>, x: Vec): (r: Vec)
    requires Square(a) && |x| == |a|
    ensures |r| == |a|
  {
    Combine(a, x, |a|)
  }

  /** The familiar form, row by row: sum over j < m of a(i, j) x(j). */
  function RowSum(a: seq<Vec>, x: Vec, i: nat, m: nat): real
    requires Square(a) && |x| == |a| && m <= |a| && i < |a|
  {
    if m == 0 then 0.0 else RowSum(a, x, i, m - 1) + a[m - 1][i] * x[m - 1]
  }

  lemma {:induction false} CombineByRows(a: seq<Vec>, x: Vec, i: nat, m: nat)
    requires Square(a) && |x| == |a| && m <= |a| && i < |a|
    ensures Combine(a, x, m)[i] == RowSum(a, x, i, m)
  {
    if m > 0 {
      CombineByRows(a, x, i, m - 1);
    }
  }

  // ----- One step is an invertible linear map -----

  lemma ElimAt(v: Vec, k: nat, l: nat, c: Vec, i: nat)
    requires k <= l < |v| == |c| && i < |v|
    ensures Elim(v, k, l, c)[i] ==
            (if i == k then v[l] else if i == l then v[k] else v[i]) + (if i <= k then 0.0 else v[l] * c[i])
  {
  }

  lemma ElimOfZeros(n: nat, k: nat, l: nat, c: Vec)
    requires k <= l < n == |c|
    ensures Elim(Zeros(n), k, l, c) == Zeros(n)
  {
    hide Elim;
    forall i | 0 <= i < n ensures Elim(Zeros(n), k, l, c)[i] == 0.0 {
      ElimAt(Zeros(n), k, l, c, i);
    }
  }

  lemma Distribute(x: real, s: real, y: real, c: real)
    ensures (x + s * y) * c == x * c + s * (y * c)
  {
  }

  lemma Group(x: real, y: real, p: real, q: real, s: real)
    ensures (x + s * y) + (p + s * q) == (x + p) + s * (y + q)
  {
  }

  lemma ElimOfSumAt(u: Vec, s: real, v: Vec, k: nat, l: nat, c: Vec, i: nat)
    requires k <= l < |u| == |v| == |c| && i < |u|
    ensures Elim(Plus(u, s, v), k, l, c)[i] == Elim(u, k, l, c)[i] + s * Elim(v, k, l, c)[i]
  {
    ElimAt(u, k, l, c, i);
    ElimAt(v, k, l, c, i);
    ElimAt(Plus(u, s, v), k, l, c, i);
    hide Elim, Plus;
    var p := if i == k then l else if i == l then k else i;
    Distribute(u[l], s, v[l], c[i]);
    if i > k {
      Group(u[p], v[p], u[l] * c[i], v[l] * c[i], s);
    }
  }

  lemma ElimOfSum(u: Vec, s: real, v: Vec, k: nat, l: nat, c: Vec)
    requires k <= l < |u| == |v| == |c|
    ensures Elim(Plus(u, s, v), k, l, c) == Plus(Elim(u, k, l, c), s, Elim(v, k, l, c))
  {
    hide Elim, Plus;
    forall i | 0 <= i < |u| ensures Elim(Plus(u, s, v), k, l, c)[i] == Plus(Elim(u, k, l, c), s, Elim(v, k, l, c))[i] {
      ElimOfSumAt(u, s, v, k, l, c, i);
    }
  }

  lemma ElimIsInjective(u: Vec, v: Vec, k: nat, l: nat, c: Vec)
    requires k <= l < |u| == |v| == |c|
    requires Elim(u, k, l, c) == Elim(v, k, l, c)
    ensures u == v
  {
    hide Elim;
    ElimAt(u, k, l, c, k);
    ElimAt(v, k, l, c, k);
    forall i | 0 <= i < |u| ensures u[i] == v[i] {
      var p := if i == k then l else if i == l then k else i;
      ElimAt(u, k, l, c, p);
      ElimAt(v, k, l, c, p);
    }
  }

  /** Eliminating in the columns is eliminating in the product. */
  lemma {:induction false} ElimOfCombine(a: seq<Vec>, r: seq<Vec>, x: Vec, k: nat, l: nat, c: Vec, m: nat)
    requires Square(a) && Square(r) && |x| == |a| == |r| == |c| && m <= |a| && k <= l < |a|
    requires forall j :: 0 <= j < m ==> r[j] == Elim(a[j], k, l, c)
    ensures Combine(r, x, m) == Elim(Combine(a, x, m), k, l, c)
  {
    hide Elim, Plus;
    if m == 0 {
      ElimOfZeros(|a|, k, l, c);
    } else {
      ElimOfCombine(a, r, x, k, l, c, m - 1);
      ElimOfSum(Combine(a, x, m - 1), x[m - 1], a[m - 1], k, l, c);
    }
  }

  // ----- The triangular matrix that the factors stand for -----

  function Upper(v: Vec, k: nat): (w: Vec)
    ensures |w| == |v|
  {
    seq(|v|, i requires 0 <= i < |v| => if i <= k then v[i] else 0.0)
  }

  /** The matrix after k steps: the multipliers below the diagonal of the first k columns stand for zeros. */
  function Reduced(f: seq<Vec>, k: nat): (r: seq<Vec>)
    requires Square(f) && k <= |f|
    ensures |r| == |f| && Square(r)
  {
    seq(|f|, j requires 0 <= j < |f| => if j < k then Upper(f[j], j) else f[j])
  }

  lemma ZeroPivot(v: Vec, k: nat)
    requires k < |v| && v[Pivot(v, k, |v|)] == 0.0
    ensures Pivot(v, k, |v|) == k && forall i :: k <= i < |v| ==> v[i] == 0.0
  {
    var l := Pivot(v, k, |v|);
    PivotIsLargest(v, k, |v|);
    hide Pivot;
    assert l > k ==> Abs(v[k]) < Abs(v[l]);
    forall i | k <= i < |v| ensures v[i] == 0.0 {
      assert Abs(v[i]) <= Abs(v[l]);
    }
  }

  lemma Cancels(p: real, x: real)
    requires p != 0.0
    ensures x + p * (-1.0 / p * x) == 0.0
  {
    assert p * (-1.0 / p) == -1.0;
    assert p * (-1.0 / p * x) == (p * (-1.0 / p)) * x;
  }

  lemma PivotColumn(v: Vec, k: nat, l: nat)
    requires k <= l < |v| && v[l] != 0.0
    ensures Elim(v, k, l, Multipliers(Swap(v, k, l), k)) == Upper(Multipliers(Swap(v, k, l), k), k)
  {
    var w := Swap(v, k, l);
    var c := Multipliers(w, k);
    forall i | 0 <= i < |v| ensures Elim(v, k, l, c)[i] == Upper(c, k)[i] {
      ElimAt(v, k, l, c, i);
      if i > k {
        Cancels(v[l], w[i]);
      }
    }
  }

  lemma EliminatedColumn(v: Vec, j: nat, k: nat, l: nat, c: Vec)
    requires j < k <= l < |v| == |c|
    ensures Elim(Upper(v, j), k, l, c) == Upper(v, j)
  {
    forall i | 0 <= i < |v| ensures Elim(Upper(v, j), k, l, c)[i] == Upper(v, j)[i] {
      ElimAt(Upper(v, j), k, l, c, i);
      hide Elim;
    }
  }

  lemma IdentityStep(v: Vec, k: nat, c: Vec)
    requires k < |v| == |c| && forall i :: k < i < |v| ==> c[i] == 0.0
    ensures Elim(v, k, k, c) == v
  {
    forall i | 0 <= i < |v| ensures Elim(v, k, k, c)[i] == v[i] {
      ElimAt(v, k, k, c, i);
      hide Elim;
    }
  }

  /** One step of dgefa applies the same linear map to every column of the matrix its array stands for. */
  lemma StepReduces(f: seq<Vec>, k: nat, j: nat)
    requires Square(f) && k < |f| && j < |f|
    ensures Reduced(FactorStep(f, k), k + 1)[j] ==
            Elim(Reduced(f, k)[j], k, Pivot(f[k], k, |f|), FactorStep(f, k)[k])
  {
    var l := Pivot(f[k], k, |f|);
    hide Elim, Multipliers, Upper, Pivot;
    if f[k][l] == 0.0 {
      ZeroPivot(f[k], k);
      IdentityStep(Reduced(f, k)[j], k, f[k]);
      if j == k {
        ZeroColumn(f[k], k);
      }
    } else if j < k {
      EliminatedColumn(f[j], j, k, l, FactorStep(f, k)[k]);
    } else if j == k {
      PivotColumn(f[k], k, l);
    }
  }

  lemma ZeroColumn(v: Vec, k: nat)
    requires k < |v| && forall i :: k <= i < |v| ==> v[i] == 0.0
    ensures Upper(v, k) == v
  {
  }

  /** A step of dgefa, with the same step of dgesl on the right-hand side, neither loses nor gains a solution. */
  lemma StepKeepsSolutions(f: seq<Vec>, k: nat, x: Vec, b: Vec)
    requires Square(f) && k < |f| == |x| == |b|
    ensures Product(Reduced(f, k), x) == b <==>
            Product(Reduced(FactorStep(f, k), k + 1), x) == Elim(b, k, Pivot(f[k], k, |f|), FactorStep(f, k)[k])
  {
    var a, r := Reduced(f, k), Reduced(FactorStep(f, k), k + 1);
    var l, c := Pivot(f[k], k, |f|), FactorStep(f, k)[k];
    hide FactorStep, Reduced, Elim, Combine, Pivot;
    forall j | 0 <= j < |a| ensures r[j] == Elim(a[j], k, l, c) {
      StepReduces(f, k, j);
    }
    ElimOfCombine(a, r, x, k, l, c, |a|);
    if Elim(Product(a, x), k, l, c) == Elim(b, k, l, c) {
      ElimIsInjective(Product(a, x), b, k, l, c);
    }
  }

  // ----- Column k of the factors, and ipvt[k], are final after step k -----

  lemma FactoredStep(a: seq<Vec>, k: nat)
    requires Square(a) && 0 < k <= |a|
    ensures Factored(a, k) == FactorStep(Factored(a, k - 1), k - 1)
    ensures forall j :: 0 <= j < k - 1 ==> Factored(a, k)[j] == Factored(a, k - 1)[j]
  {
    hide Multipliers, Elim, Pivot;
  }

  lemma {:induction false} ColumnIsFinal(a: seq<Vec>, k: nat, m: nat)
    requires Square(a) && k < m <= |a|
    ensures Factored(a, m)[k] == Factored(a, k + 1)[k]
  {
    hide Factored;
    if m > k + 1 {
      ColumnIsFinal(a, k, m - 1);
      FactoredStep(a, m);
    }
  }

  lemma PivotsStep(a: seq<Vec>, k: nat)
    requires Square(a) && 0 < k <= |a|
    ensures Pivots(a, k) == Pivots(a, k - 1) + [Pivot(Factored(a, k - 1)[k - 1], k - 1, |a|)]
  {
    hide Factored, Pivot;
  }

  lemma {:induction false} PivotIsFinal(a: seq<Vec>, k: nat, m: nat)
    requires Square(a) && k < m <= |a|
    ensures Pivots(a, m)[k] == Pivot(Factored(a, k)[k], k, |a|)
  {
    hide Factored, Pivot, Pivots;
    PivotsStep(a, m);
    if m > k + 1 {
      PivotIsFinal(a, k, m - 1);
    }
  }

  lemma {:induction false} ForwardSolutions(a: seq<Vec>, x: Vec, b: Vec, k: nat)
    requires Square(a) && |x| == |a| == |b| && k <= |a|
    ensures Product(a, x) == b <==>
            Product(Reduced(Factored(a, k), k), x) == Forward(Factored(a, |a|), Pivots(a, |a|), b, k)
  {
    hide FactorStep, Elim, Combine, Pivot;
    if k == 0 {
      assert Reduced(a, 0) == a;
    } else {
      hide Reduced, Pivots;
      var f, p := Factored(a, |a|), Pivots(a, |a|);
      ForwardSolutions(a, x, b, k - 1);
      StepKeepsSolutions(Factored(a, k - 1), k - 1, x, Forward(f, p, b, k - 1));
      ColumnIsFinal(a, k - 1, |a|);
      PivotIsFinal(a, k - 1, |a|);
    }
  }
}
