/** linpack.c on its arrays, at unit stride: a(i, j) is a[lda * j + i]. */
module Linpack {
  import opened Elimination
  import T = EliminationTheorems

  // ----- The matrix in the array -----

  function Base(lda: nat, j: nat): nat {
    lda * j
  }

  lemma {:induction false} ColumnsAreApart(lda: nat, n: nat, i: nat, j: nat)
    requires n <= lda && i < j
    ensures Base(lda, i) + n <= Base(lda, j)
  {
    hide Base;
    NextBase(lda, j - 1);
    if i < j - 1 {
      ColumnsAreApart(lda, n, i, j - 1);
    }
  }

  lemma NextBase(lda: nat, j: nat)
    ensures Base(lda, j + 1) == Base(lda, j) + lda
  {
  }

  ghost predicate Fits(length: nat, lda: nat, n: nat) {
    0 < n <= lda && Base(lda, n - 1) + n <= length
  }

  lemma ColumnFits(length: nat, lda: nat, n: nat, j: nat)
    requires Fits(length, lda, n) && j < n
    ensures Base(lda, j) + n <= length
  {
    if j < n - 1 {
      ColumnsAreApart(lda, n, j, n - 1);
    }
  }

  ghost function Column(m: seq<real>, lda: nat, n: nat, j: nat): (v: Vec)
    requires Fits(|m|, lda, n) && j < n
    ensures |v| == n
  {
    ColumnFits(|m|, lda, n, j);
    m[Base(lda, j)..Base(lda, j) + n]
  }

  ghost function Columns(m: seq<real>, lda: nat, n: nat): (a: seq<Vec>)
    requires Fits(|m|, lda, n)
    ensures |a| == n && Square(a)
    ensures forall j :: 0 <= j < n ==> a[j] == Column(m, lda, n, j)
  {
    seq(n, j requires 0 <= j < n => Column(m, lda, n, j))
  }

  ghost predicate SameOutside(m: seq<real>, r: seq<real>, lo: nat, hi: nat) {
    |r| == |m| && forall i :: 0 <= i < |m| && !(lo <= i < hi) ==> r[i] == m[i]
  }

  ghost predicate InPadding(i: nat, lda: nat, n: nat) {
    forall j: nat :: j < n ==> i < Base(lda, j) || Base(lda, j) + n <= i
  }

  /** Rows n..lda-1 of every column, and whatever follows the last column, are as they were. */
  ghost predicate SamePadding(m: seq<real>, r: seq<real>, lda: nat, n: nat) {
    |r| == |m| && forall i :: 0 <= i < |m| && InPadding(i, lda, n) ==> r[i] == m[i]
  }

  /** Column j was replaced by v, and nothing else changed. */
  ghost predicate ColumnSet(m: seq<real>, r: seq<real>, lda: nat, n: nat, j: nat, v: Vec)
    requires Fits(|m|, lda, n) && j < n
  {
    SameOutside(m, r, Base(lda, j), Base(lda, j) + n) && Column(r, lda, n, j) == v
  }

  lemma OtherColumns(m: seq<real>, r: seq<real>, lda: nat, n: nat, j: nat, v: Vec, i: nat)
    requires Fits(|m|, lda, n) && j < n && i < n && ColumnSet(m, r, lda, n, j, v)
    ensures Column(r, lda, n, i) == if i == j then v else Column(m, lda, n, i)
  {
    ColumnFits(|m|, lda, n, i);
    if i < j {
      ColumnsAreApart(lda, n, i, j);
    } else if j < i {
      ColumnsAreApart(lda, n, j, i);
    }
  }

  lemma PaddingKept(m: seq<real>, r: seq<real>, lda: nat, n: nat, j: nat, v: Vec)
    requires Fits(|m|, lda, n) && j < n && ColumnSet(m, r, lda, n, j, v)
    ensures SamePadding(m, r, lda, n)
  {
  }

  // ----- The basic routines -----

  lemma {:induction false} PivotOfSlice(v: Vec, k: nat, m: nat)
    requires k < m <= |v|
    ensures Pivot(v[k..], 0, m - k) + k == Pivot(v, k, m)
  {
    if m > k + 1 {
      PivotOfSlice(v, k, m - 1);
    }
  }

  /** idamax, on the n entries from off on. */
  method Idamax(n: int, dx: array<real>, off: nat) returns (itemp: int)
    requires n < 1 || off + n <= dx.Length
    ensures n < 1 ==> itemp == -1
    ensures n >= 1 ==> itemp == Pivot(dx[off..off + n], 0, n)
  {
    if n < 1 { return -1; }
    if n == 1 { return 0; }
    itemp := 0;
    ghost var v := dx[off..off + n];
    var dmax := Abs(dx[off]);
    var i := 1;
    while i < n
      invariant 1 <= i <= n
      invariant itemp == Pivot(v, 0, i) && dmax == Abs(v[itemp])
    {
      if Abs(dx[off + i]) > dmax {
        itemp := i;
        dmax := Abs(dx[off + i]);
      }
      i := i + 1;
    }
  }

  /** dscal, rolled. */
  method Dscal(n: int, da: real, dx: array<real>, off: nat)
    requires n <= 0 || off + n <= dx.Length
    modifies dx
    ensures forall i :: 0 <= i < dx.Length ==> dx[i] == if off <= i < off + n then Times(da, old(dx[i])) else old(dx[i])
  {
    var i := 0;
    while i < n
      invariant 0 <= i <= n || i == 0
      invariant forall p :: 0 <= p < dx.Length ==> dx[p] == if off <= p < off + i then Times(da, old(dx[p])) else old(dx[p])
    {
      dx[off + i] := Times(da, dx[off + i]);
      i := i + 1;
    }
  }

  /** y after dy[i] = dy[i] + da*dx[i] for i < k. */
  ghost predicate Added(old_y: seq<real>, x: seq<real>, y: seq<real>, k: int, da: real, xoff: nat, yoff: nat)
    requires |y| == |old_y| && (k <= 0 || xoff + k <= |x|)
  {
    forall i :: 0 <= i < |y| ==> y[i] == if yoff <= i < yoff + k then AddTimes(old_y[i], da, x[xoff + i - yoff]) else old_y[i]
  }

  /** daxpy, rolled. The two vectors may be parts of one array that do not meet. */
  method Daxpy(n: int, da: real, dx: array<real>, xoff: nat, dy: array<real>, yoff: nat)
    requires n <= 0 || (xoff + n <= dx.Length && yoff + n <= dy.Length)
    requires n > 0 && dx == dy ==> xoff + n <= yoff || yoff + n <= xoff
    modifies dy
    ensures Added(old(dy[..]), old(dx[..]), dy[..], n, da, xoff, yoff)
  {
    if n <= 0 { return; }
    if da == 0.0 { return; }
    hide AddTimes;
    ghost var x, y := dx[..], dy[..];
    var i := 0;
    while i < n
      invariant 0 <= i <= n
      invariant forall p :: xoff <= p < xoff + n ==> dx[p] == x[p]
      invariant Added(y, x, dy[..], i, da, xoff, yoff)
    {
      dy[yoff + i] := AddTimes(dy[yoff + i], da, dx[xoff + i]);
      i := i + 1;
    }
  }

  /** Statement i of the unrolled loop. */
  method AddOne(ghost y: seq<real>, ghost x: seq<real>, n: nat, da: real, dx: array<real>, xoff: nat, dy: array<real>,
                yoff: nat, i: nat)
    requires i < n && |y| == dy.Length && |x| == dx.Length && xoff + n <= dx.Length && yoff + n <= dy.Length
    requires dx == dy ==> xoff + n <= yoff || yoff + n <= xoff
    requires dx[xoff..xoff + n] == x[xoff..xoff + n] && Added(y, x, dy[..], i, da, xoff, yoff)
    modifies dy
    ensures dx[xoff..xoff + n] == x[xoff..xoff + n] && Added(y, x, dy[..], i + 1, da, xoff, yoff)
  {
    hide AddTimes;
    assert dx[xoff..xoff + n][i] == x[xoff..xoff + n][i];
    dy[yoff + i] := AddTimes(dy[yoff + i], da, dx[xoff + i]);
  }

  /** daxpy, unrolled: the same result, for every n. */
  method DaxpyUnrolled(n: int, da: real, dx: array<real>, xoff: nat, dy: array<real>, yoff: nat)
    requires n <= 0 || (xoff + n <= dx.Length && yoff + n <= dy.Length)
    requires n > 0 && dx == dy ==> xoff + n <= yoff || yoff + n <= xoff
    modifies dy
    ensures Added(old(dy[..]), old(dx[..]), dy[..], n, da, xoff, yoff)
  {
    if n <= 0 { return; }
    if da == 0.0 { return; }
    ghost var x, y := dx[..], dy[..];
    var m := n % 4;
    var i := 0;
    assert Added(y, x, dy[..], 0, da, xoff, yoff);
    hide Added, AddTimes;
    if m != 0 {
      while i < m
        invariant 0 <= i <= m
        invariant dx[xoff..xoff + n] == x[xoff..xoff + n] && Added(y, x, dy[..], i, da, xoff, yoff)
      {
        AddOne(y, x, n, da, dx, xoff, dy, yoff, i);
        i := i + 1;
      }
      if n < 4 { return; }
    }
    i := m;
    while i < n
      invariant m <= i <= n && (n - i) % 4 == 0
      invariant dx[xoff..xoff + n] == x[xoff..xoff + n] && Added(y, x, dy[..], i, da, xoff, yoff)
    {
      AddOne(y, x, n, da, dx, xoff, dy, yoff, i);
      AddOne(y, x, n, da, dx, xoff, dy, yoff, i + 1);
      AddOne(y, x, n, da, dx, xoff, dy, yoff, i + 2);
      AddOne(y, x, n, da, dx, xoff, dy, yoff, i + 3);
      i := i + 4;
    }
  }

  /** The interchange of two entries. */
  method Interchange(a: array<real>, p: nat, q: nat)
    requires p < a.Length && q < a.Length
    modifies a
    ensures a[..] == old(a[..])[p := old(a[q])][q := old(a[p])]
  {
    if p != q {
      var t := a[p];
      a[p] := a[q];
      a[q] := t;
    }
  }

  // ----- dgefa -----

  /** Interchange in column k, and the multipliers. */
  method ScaleColumn(a: array<real>, lda: nat, n: nat, k: nat, l: nat)
    requires Fits(a.Length, lda, n) && k <= l < n && Column(a[..], lda, n, k)[l] != 0.0
    modifies a
    ensures ColumnSet(old(a[..]), a[..], lda, n, k, Multipliers(Swap(Column(old(a[..]), lda, n, k), k, l), k))
  {
    ColumnFits(a.Length, lda, n, k);
    hide Times;
    var base := Base(lda, k);
    ghost var v := Column(a[..], lda, n, k);
    Interchange(a, base + k, base + l);
    var t := -1.0 / a[base + k];
    Dscal(n - (k + 1), t, a, base + k + 1);
    assert Column(a[..], lda, n, k) == Multipliers(Swap(v, k, l), k);
  }

  /** An interchange and a daxpy on the n entries of an array from base on are one step of the elimination. */
  lemma ElimInPlace(m: seq<real>, r: seq<real>, base: nat, n: nat, k: nat, l: nat, c: Vec, x: seq<real>, xoff: nat)
    requires k <= l < n == |c| && base + n <= |m| == |r| && xoff + n - (k + 1) <= |x|
    requires forall i :: k < i < n ==> c[i] == x[xoff + i - (k + 1)]
    requires Added(m[base + k := m[base + l]][base + l := m[base + k]], x, r, n - (k + 1), m[base + l], xoff, base + k + 1)
    ensures r[base..base + n] == Elim(m[base..base + n], k, l, c) && SameOutside(m, r, base, base + n)
  {
    hide AddTimes;
    var v := m[base..base + n];
    var w := Elim(v, k, l, c);
    forall i | 0 <= i < n ensures r[base + i] == w[i] {
    }
  }

  /** The interchange and the elimination in column j. */
  method EliminateColumn(a: array<real>, lda: nat, n: nat, k: nat, l: nat, j: nat)
    requires Fits(a.Length, lda, n) && k <= l < n && k < j < n
    modifies a
    ensures ColumnSet(old(a[..]), a[..], lda, n, j,
                      Elim(Column(old(a[..]), lda, n, j), k, l, Column(old(a[..]), lda, n, k)))
  {
    ColumnFits(a.Length, lda, n, j);
    ColumnsAreApart(lda, n, k, j);
    var from, base := Base(lda, k), Base(lda, j);
    hide Added, ColumnSet, Column, Elim, Base;
    ghost var m := a[..];
    var t := a[base + l];
    Interchange(a, base + k, base + l);
    ghost var x := a[..];
    Daxpy(n - (k + 1), t, a, from + k + 1, a, base + k + 1);
    ColumnEliminated(m, x, a[..], lda, n, k, l, j);
  }

  lemma ColumnEliminated(m: seq<real>, x: seq<real>, r: seq<real>, lda: nat, n: nat, k: nat, l: nat, j: nat)
    requires Fits(|m|, lda, n) && k <= l < n && k < j < n && |r| == |m|
    requires Base(lda, k) + n <= Base(lda, j) && Base(lda, j) + n <= |m|
    requires var base := Base(lda, j); x == m[base + k := m[base + l]][base + l := m[base + k]]
    requires Added(x, x, r, n - (k + 1), m[Base(lda, j) + l], Base(lda, k) + k + 1, Base(lda, j) + k + 1)
    ensures ColumnSet(m, r, lda, n, j, Elim(Column(m, lda, n, j), k, l, Column(m, lda, n, k)))
  {
    hide Added, Elim, Base;
    var from := Base(lda, k);
    var c := Column(m, lda, n, k);
    forall i | k < i < n ensures c[i] == x[from + k + 1 + i - (k + 1)] {
      assert c[i] == m[from + i];
    }
    ElimInPlace(m, r, Base(lda, j), n, k, l, c, x, from + k + 1);
    hide SameOutside;
  }

  ghost predicate EliminatedTo(m: seq<real>, r: seq<real>, lda: nat, n: nat, k: nat, l: nat, c: Vec, j: nat)
    requires Fits(|m|, lda, n) && |r| == |m| && k <= l < n == |c| && k < j <= n
  {
    forall i: nat :: i < n ==>
      Column(r, lda, n, i) ==
      if i == k then c else if k < i < j then Elim(Column(m, lda, n, i), k, l, c) else Column(m, lda, n, i)
  }

  lemma OneMoreColumn(m: seq<real>, r: seq<real>, q: seq<real>, lda: nat, n: nat, k: nat, l: nat, c: Vec, j: nat)
    requires Fits(|m|, lda, n) && |r| == |m| && k <= l < n == |c| && k < j < n
    requires EliminatedTo(m, r, lda, n, k, l, c, j)
    requires ColumnSet(r, q, lda, n, j, Elim(Column(r, lda, n, j), k, l, c))
    ensures EliminatedTo(m, q, lda, n, k, l, c, j + 1)
  {
    assert |q| == |r|;
    hide ColumnSet, Column, Elim;
    forall i: nat | i < n
      ensures Column(q, lda, n, i) ==
              if i == k then c else if k < i < j + 1 then Elim(Column(m, lda, n, i), k, l, c) else Column(m, lda, n, i)
    {
      OtherColumns(r, q, lda, n, j, Elim(Column(r, lda, n, j), k, l, c), i);
    }
  }

  /** The body of the loop of dgefa for a pivot that is not zero. */
  method EliminationStep(a: array<real>, lda: nat, n: nat, k: nat, l: nat)
    requires Fits(a.Length, lda, n) && k <= l < n && Column(a[..], lda, n, k)[l] != 0.0
    modifies a
    ensures var m := old(a[..]);
      && EliminatedTo(m, a[..], lda, n, k, l, Multipliers(Swap(Column(m, lda, n, k), k, l), k), n)
      && SamePadding(m, a[..], lda, n)
  {
    assert Swap(Column(a[..], lda, n, k), k, l)[k] != 0.0;
    hide Elim, Multipliers, Swap;
    ghost var m := a[..];
    ghost var c := Multipliers(Swap(Column(m, lda, n, k), k, l), k);
    ScaleColumn(a, lda, n, k, l);
    PaddingKept(m, a[..], lda, n, k, c);
    forall i: nat | i < n ensures Column(a[..], lda, n, i) == if i == k then c else Column(m, lda, n, i) {
      OtherColumns(m, a[..], lda, n, k, c, i);
    }
    hide Column, ColumnSet;
    var j := k + 1;
    while j < n
      invariant k < j <= n
      invariant EliminatedTo(m, a[..], lda, n, k, l, c, j)
      invariant SamePadding(m, a[..], lda, n)
    {
      ghost var r := a[..];
      EliminateColumn(a, lda, n, k, l, j);
      OneMoreColumn(m, r, a[..], lda, n, k, l, c, j);
      PaddingKept(r, a[..], lda, n, j, Elim(Column(r, lda, n, j), k, l, c));
      j := j + 1;
    }
  }

  lemma StepOfColumns(m: seq<real>, r: seq<real>, lda: nat, n: nat, k: nat)
    requires Fits(|m|, lda, n) && |r| == |m| && k < n
    requires var v := Column(m, lda, n, k);
      var l := Pivot(v, k, n);
      v[l] != 0.0 && EliminatedTo(m, r, lda, n, k, l, Multipliers(Swap(v, k, l), k), n)
    ensures Columns(r, lda, n) == FactorStep(Columns(m, lda, n), k)
  {
    hide Column, Pivot, Elim, Multipliers, Swap;
  }

  lemma PivotOfColumn(m: seq<real>, lda: nat, n: nat, k: nat)
    requires Fits(|m|, lda, n) && k < n && Base(lda, k) + n <= |m|
    ensures Pivot(m[Base(lda, k) + k..Base(lda, k) + n], 0, n - k) + k == Pivot(Column(m, lda, n, k), k, n)
  {
    var v := Column(m, lda, n, k);
    PivotOfSlice(v, k, n);
    assert v[k..] == m[Base(lda, k) + k..Base(lda, k) + n];
  }

  lemma SamePaddingTransitive(m: seq<real>, r: seq<real>, q: seq<real>, lda: nat, n: nat)
    requires SamePadding(m, r, lda, n) && SamePadding(r, q, lda, n)
    ensures SamePadding(m, q, lda, n)
  {
    hide InPadding;
  }

  /** The body of the loop of dgefa; the result is the new value of *info. */
  method FactorLoopBody(a: array<real>, lda: nat, n: nat, ipvt: array<int>, k: nat, info: int) returns (r: int)
    requires Fits(a.Length, lda, n) && k < n - 1 && n <= ipvt.Length
    modifies a, ipvt
    ensures Columns(a[..], lda, n) == FactorStep(Columns(old(a[..]), lda, n), k)
    ensures SamePadding(old(a[..]), a[..], lda, n)
    ensures var v := Columns(old(a[..]), lda, n)[k];
      && ipvt[..] == old(ipvt[..])[k := Pivot(v, k, n)]
      && r == if v[Pivot(v, k, n)] == 0.0 then k else info
  {
    hide FactorStep, SamePadding, EliminatedTo, Elim, Multipliers, Swap;
    ColumnFits(a.Length, lda, n, k);
    ghost var m := a[..];
    PivotOfColumn(m, lda, n, k);
    var l := Idamax(n - k, a, Base(lda, k) + k);
    assert a[Base(lda, k) + k..Base(lda, k) + k + (n - k)] == m[Base(lda, k) + k..Base(lda, k) + n];
    l := l + k;
    ipvt[k] := l;
    hide Pivot;
    if a[Base(lda, k) + l] != 0.0 {
      r := info;
      EliminationStep(a, lda, n, k, l);
      StepOfColumns(m, a[..], lda, n, k);
    } else {
      r := k;
      ZeroStep(Columns(m, lda, n), k);
      SamePaddingAtFirst(m, lda, n);
    }
  }

  lemma ZeroStep(f: seq<Vec>, k: nat)
    requires Square(f) && k < |f| && f[k][Pivot(f[k], k, |f|)] == 0.0
    ensures FactorStep(f, k) == f
  {
  }

  lemma SamePaddingAtFirst(m: seq<real>, lda: nat, n: nat)
    ensures SamePadding(m, m, lda, n)
  {
  }

  lemma PivotsExtended(a: seq<Vec>, k: nat, before: seq<int>, after: seq<int>)
    requires Square(a) && k < |a| <= |before| && before[..k] == Pivots(a, k)
    requires after == before[k := Pivot(Factored(a, k)[k], k, |a|)]
    ensures after[..k + 1] == Pivots(a, k + 1)
  {
    hide Factored, Pivot;
    assert after[..k + 1] == before[..k] + [after[k]];
  }

  method Dgefa(a: array<real>, lda: nat, n: nat, ipvt: array<int>) returns (info: int)
    requires Fits(a.Length, lda, n) && n <= ipvt.Length
    modifies a, ipvt
    ensures Columns(a[..], lda, n) == T.Dgefa(old(Columns(a[..], lda, n)))
    ensures SamePadding(old(a[..]), a[..], lda, n)
    ensures ipvt[..n] == T.DgefaPivots(old(Columns(a[..], lda, n))) && ipvt[n..] == old(ipvt[n..])
    ensures info == T.DgefaInfo(old(Columns(a[..], lda, n)))
  {
    hide Column, FactorStep, Pivot, SamePadding, Pivots;
    ghost var m0 := a[..];
    ghost var a0 := Columns(m0, lda, n);
    info := 0;
    var k := 0;
    SamePaddingAtFirst(m0, lda, n);
    assert Pivots(a0, 0) == [];
    while k < n - 1
      invariant 0 <= k <= n - 1
      invariant Columns(a[..], lda, n) == Factored(a0, k)
      invariant SamePadding(m0, a[..], lda, n)
      invariant ipvt[..k] == Pivots(a0, k) && ipvt[n..] == old(ipvt[n..])
      invariant info == InfoAfter(a0, k)
    {
      ghost var m, p := a[..], ipvt[..];
      info := FactorLoopBody(a, lda, n, ipvt, k, info);
      SamePaddingTransitive(m0, m, a[..], lda, n);
      PivotsExtended(a0, k, p, ipvt[..]);
      k := k + 1;
    }
    ipvt[n - 1] := n - 1;
    ColumnFits(a.Length, lda, n, n - 1);
    var last := Base(lda, n - 1) + (n - 1);
    assert a[last] == Column(a[..], lda, n, n - 1)[n - 1] by { EntryOfColumn(a[..], lda, n, n - 1, n - 1); }
    if a[last] == 0.0 { info := n - 1; }
  }

  lemma EntryOfColumn(m: seq<real>, lda: nat, n: nat, j: nat, i: nat)
    requires Fits(|m|, lda, n) && j < n && i < n && Base(lda, j) + n <= |m|
    ensures Column(m, lda, n, j)[i] == m[Base(lda, j) + i]
  {
  }

  // ----- dgesl, job 0 -----

  /** One pass of the first loop: interchange, then eliminate. */
  method ForwardStep(a: array<real>, lda: nat, n: nat, b: array<real>, k: nat, l: nat)
    requires Fits(a.Length, lda, n) && n <= b.Length && a != b && k <= l < n
    modifies b
    ensures b[..n] == Elim(old(b[..n]), k, l, Column(a[..], lda, n, k)) && b[n..] == old(b[n..])
  {
    ColumnFits(a.Length, lda, n, k);
    hide Added, Elim, Base;
    ghost var m, c := b[..], Column(a[..], lda, n, k);
    var from := Base(lda, k);
    var t := b[l];
    Interchange(b, k, l);
    Daxpy(n - (k + 1), t, a, from + k + 1, b, k + 1);
    ElimInPlace(m, b[..], 0, n, k, l, c, a[..], from + k + 1);
    assert m[0..n] == m[..n];
  }

  /** One pass of the second loop: the unknown k, and its part taken from the rows above. */
  method SubstituteStep(a: array<real>, lda: nat, n: nat, b: array<real>, k: nat)
    requires Fits(a.Length, lda, n) && n <= b.Length && a != b && k < n
    requires Column(a[..], lda, n, k)[k] != 0.0
    modifies b
    ensures b[..n] == T.Substitute(Columns(a[..], lda, n), old(b[..n]), k) && b[n..] == old(b[n..])
  {
    ColumnFits(a.Length, lda, n, k);
    ghost var v, c := b[..n], Column(a[..], lda, n, k);
    var from := Base(lda, k);
    b[k] := b[k] / a[from + k];
    var t := -b[k];
    Daxpy(k, t, a, from, b, 0);
    assert b[..n] == AddScaled(v[k := v[k] / c[k]], -(v[k] / c[k]), c, 0, k);
  }

  ghost predicate PivotsFor(p: seq<int>, n: nat) {
    |p| == n && forall i :: 0 <= i < n ==> i <= p[i] < n
  }

  ghost function Nats(p: seq<int>, n: nat): (q: seq<nat>)
    requires PivotsFor(p, n)
    ensures |q| == n && forall i :: 0 <= i < n ==> q[i] == p[i]
  {
    seq(n, i requires 0 <= i < n => p[i])
  }

  method Dgesl(a: array<real>, lda: nat, n: nat, ipvt: array<int>, b: array<real>)
    requires Fits(a.Length, lda, n) && n <= b.Length && a != b
    requires n <= ipvt.Length && PivotsFor(ipvt[..n], n)
    requires RegularTo(Columns(a[..], lda, n), n)
    modifies b
    ensures b[..n] == T.Dgesl(Columns(a[..], lda, n), Nats(ipvt[..n], n), old(b[..n])) && b[n..] == old(b[n..])
  {
    hide Column, Elim, T.Substitute, AddScaled;
    ghost var f, p, b0 := Columns(a[..], lda, n), Nats(ipvt[..n], n), b[..n];
    if n - 1 >= 1 {
      var k := 0;
      while k < n - 1
        invariant 0 <= k <= n - 1
        invariant b[..n] == Forward(f, p, b0, k) && b[n..] == old(b[n..])
      {
        ForwardStep(a, lda, n, b, k, ipvt[k]);
        k := k + 1;
      }
    }
    ghost var y := b[..n];
    var kb := 0;
    while kb < n
      invariant 0 <= kb <= n
      invariant BackSub(f, b[..n], n - kb) == BackSub(f, y, n) && b[n..] == old(b[n..])
    {
      var k := n - (kb + 1);
      ghost var r := b[..n];
      SubstituteStep(a, lda, n, b, k);
      SubstituteFirst(f, r, k);
      kb := kb + 1;
    }
  }

  lemma SubstituteFirst(f: seq<Vec>, b: Vec, k: nat)
    requires Square(f) && |b| == |f| && k < |f| && RegularTo(f, k + 1)
    ensures BackSub(f, b, k + 1) == BackSub(f, T.Substitute(f, b, k), k)
  {
    hide AddScaled;
  }

  // ----- The two calls of start -----

  /** For a matrix that is not singular, b is overwritten with the solution. */
  method Solve(a: array<real>, lda: nat, n: nat, ipvt: array<int>, b: array<real>) returns (info: int)
    requires Fits(a.Length, lda, n) && 0 < n <= b.Length && a != b && n <= ipvt.Length
    requires !T.Singular(Columns(a[..], lda, n))
    modifies a, b, ipvt
    ensures Product(old(Columns(a[..], lda, n)), b[..n]) == old(b[..n])
    ensures info == 0
  {
    hide *;
    ghost var a0, b0 := Columns(a[..], lda, n), b[..n];
    RegularMatrix(a0);
    info := Dgefa(a, lda, n, ipvt);
    ghost var f, p := Columns(a[..], lda, n), ipvt[..n];
    PivotsAreValid(a0, p);
    Dgesl(a, lda, n, ipvt, b);
    T.SolvesTheSystem(a0, b0, b[..n]);
  }

  lemma RegularMatrix(a: seq<Vec>)
    requires Square(a) && |a| > 0 && !T.Singular(a)
    ensures RegularTo(T.Dgefa(a), |a|) && T.DgefaInfo(a) == 0
  {
    T.RegularIffNotSingular(a);
    T.SingularIffReported(a);
    hide *;
  }

  lemma PivotsAreValid(a: seq<Vec>, p: seq<int>)
    requires Square(a) && |a| > 0 && p == T.DgefaPivots(a)
    ensures PivotsFor(p, |a|) && Nats(p, |a|) == T.DgefaPivots(a)
  {
    hide T.DgefaPivots;
  }
}
