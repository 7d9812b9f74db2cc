/** The data of the LINPACK example: matgen fills a 10 by 10 matrix from a shift register. The matrix is regular, so
    the whole program has one result. */
module Matgen {
  import opened Elimination
  import T = EliminationTheorems
  import opened Linpack

  const N: nat := 10
  const SEED: int := 1325

  // ----- The shift register -----

  /** A short, from the low 16 bits of an int. */
  function Short(x: int): int {
    (x + 0x8000) % 0x1_0000 - 0x8000
  }

  /** The macro next: a short is widened with its sign, so that bit 20 is the sign. */
  function NextRegister(x: int): int {
    Short(2 * x + if (x < 0) != (x / 0x100 % 2 == 1) then 1 else 0)
  }

  function Register(t: nat): int {
    if t == 0 then SEED else NextRegister(Register(t - 1))
  }

  /** The values are entered column by column, and divided by a constant; s is its reciprocal. */
  function Entry(j: nat, i: nat): int {
    Register(N * j + i + 1)
  }

  function Generated(s: real): (a: seq<Vec>)
    ensures |a| == N && Square(a)
  {
    seq(N, j requires 0 <= j < N => seq(N, i requires 0 <= i < N => s * Entry(j, i) as real))
  }

  // ----- The values, row by row -----

  const ROWS: seq<seq<int>> := [
    [2651, 27807, 31884, 12522, -22249, 23690, 10342, -26515, -18758, -5201],
    [5302, -9922, -1768, 25044, 21038, -18156, 20684, 12507, 28021, -10402],
    [10604, -19844, -3536, -15447, -23460, 29224, -24168, 25014, -9493, -20804],
    [21209, 25849, -7071, -30894, 18617, -7088, 17200, -15507, -18985, 23929],
    [-23118, -13838, -14141, 3748, -28302, -14175, -31135, -31014, 27566, -17677],
    [19300, -27676, -28281, 7496, 8932, -28349, 3267, 3509, -10403, 30183],
    [-26935, 10184, 8974, 14993, 17864, 8838, 6534, 7019, -20806, -5169],
    [11667, 20369, 17949, 29986, -29807, 17676, 13069, 14039, 23925, -10338],
    [23335, -24797, -29638, -5563, 5922, -30183, 26139, 28078, -17685, -20676],
    [-18865, 15942, 6261, -11125, 11845, 5171, -13258, -9379, 30167, 24184]
  ]

  function Value(j: nat, i: nat): int
    requires j < N && i < N
  {
    ROWS[i][j]
  }

  // The register takes each value of a column to the next.

  lemma NextsA(j: nat)
    requires 0 <= j < 3
    ensures forall i :: 0 <= i < N - 1 ==> NextRegister(Value(j, i)) == Value(j, i + 1)
  {
  }

  lemma NextsB(j: nat)
    requires 3 <= j < 6
    ensures forall i :: 0 <= i < N - 1 ==> NextRegister(Value(j, i)) == Value(j, i + 1)
  {
  }

  lemma NextsC(j: nat)
    requires 6 <= j < 8
    ensures forall i :: 0 <= i < N - 1 ==> NextRegister(Value(j, i)) == Value(j, i + 1)
  {
  }

  lemma NextsD(j: nat)
    requires 8 <= j < 10
    ensures forall i :: 0 <= i < N - 1 ==> NextRegister(Value(j, i)) == Value(j, i + 1)
  {
  }

  lemma NextsOf(j: nat)
    requires j < N
    ensures forall i :: 0 <= i < N - 1 ==> NextRegister(Value(j, i)) == Value(j, i + 1)
  {
    hide NextRegister, Value;
    if j < 3 { NextsA(j); } else if j < 6 { NextsB(j); } else if j < 8 { NextsC(j); } else { NextsD(j); }
  }

  lemma FirstOf(j: nat)
    requires j < N
    ensures NextRegister(if j == 0 then SEED else Value(j - 1, N - 1)) == Value(j, 0)
  {
  }

  lemma {:induction false} EntryIs(j: nat, i: nat)
    requires j < N && i < N
    ensures Entry(j, i) == Value(j, i)
    decreases j, i
  {
    hide NextRegister, Value;
    if i > 0 {
      EntryIs(j, i - 1);
      NextsOf(j);
      assert Value(j, i - 1 + 1) == Value(j, i);
    } else {
      FirstOf(j);
      if j == 0 {
        assert Register(1) == NextRegister(SEED);
      } else {
        EntryIs(j - 1, N - 1);
        assert N * (j - 1) + (N - 1) + 1 == N * j;
      }
    }
  }

  // ----- Regularity -----

  /** Row i of the values times y, as far as column m. */
  function Weighted(y: Vec, i: nat, m: nat): real
    requires |y| == N && i < N && m <= N
  {
    if m == 0 then 0.0 else Weighted(y, i, m - 1) + Times(Value(m - 1, i) as real, y[m - 1])
  }

  function Times(v: real, y: real): real {
    v * y
  }

  lemma Rescale(g: real, s: real, v: real, x: real, y: real)
    requires g == s * v && y == s * x
    ensures g * x == Times(v, y)
  {
  }

  lemma {:induction false} RowIsWeighted(s: real, x: Vec, y: Vec, i: nat, m: nat)
    requires |x| == |y| == N && i < N && m <= N && forall j :: 0 <= j < N ==> y[j] == s * x[j]
    ensures RowSum(Generated(s), x, i, m) == Weighted(y, i, m)
  {
    hide Entry, Value, Times;
    if m > 0 {
      RowIsWeighted(s, x, y, i, m - 1);
      EntryIs(m - 1, i);
      var v := Value(m - 1, i) as real;
      Rescale(Generated(s)[m - 1][i], s, v, x[m - 1], y[m - 1]);
      hide Generated;
    }
  }

  lemma OneMoreTerm(y: Vec, i: nat, m: nat, e: int)
    requires |y| == N && i < N && m < N && Value(m, i) == e
    ensures Weighted(y, i, m + 1) == Weighted(y, i, m) + Times(e as real, y[m])
  {
    hide Value, Times;
  }

  /** A row written out. */
  lemma RowIs(y: Vec, i: nat, e0: int, e1: int, e2: int, e3: int, e4: int, e5: int, e6: int, e7: int, e8: int, e9: int)
    requires |y| == N && i < N
    requires Value(0, i) == e0 && Value(1, i) == e1 && Value(2, i) == e2 && Value(3, i) == e3 && Value(4, i) == e4
    requires Value(5, i) == e5 && Value(6, i) == e6 && Value(7, i) == e7 && Value(8, i) == e8 && Value(9, i) == e9
    ensures Weighted(y, i, N) == Times(e0 as real, y[0]) + Times(e1 as real, y[1]) + Times(e2 as real, y[2]) + Times(e3 as real, y[3]) + Times(e4 as real, y[4])
                                 + Times(e5 as real, y[5]) + Times(e6 as real, y[6]) + Times(e7 as real, y[7]) + Times(e8 as real, y[8]) + Times(e9 as real, y[9])
  {
    assert Weighted(y, i, 0) == 0.0;
    hide Weighted, Value, Times;
    OneMoreTerm(y, i, 0, e0);
    OneMoreTerm(y, i, 1, e1);
    OneMoreTerm(y, i, 2, e2);
    OneMoreTerm(y, i, 3, e3);
    OneMoreTerm(y, i, 4, e4);
    OneMoreTerm(y, i, 5, e5);
    OneMoreTerm(y, i, 6, e6);
    OneMoreTerm(y, i, 7, e7);
    OneMoreTerm(y, i, 8, e8);
    OneMoreTerm(y, i, 9, e9);
  }

  lemma TimesIs(v: real, y: real)
    ensures Times(v, y) == v * y
  {
  }

  lemma RowSumIs(y: Vec, i: nat, e0: int, e1: int, e2: int, e3: int, e4: int, e5: int, e6: int, e7: int, e8: int, e9: int)
    requires |y| == N && i < N
    requires Value(0, i) == e0 && Value(1, i) == e1 && Value(2, i) == e2 && Value(3, i) == e3 && Value(4, i) == e4
    requires Value(5, i) == e5 && Value(6, i) == e6 && Value(7, i) == e7 && Value(8, i) == e8 && Value(9, i) == e9
    ensures Weighted(y, i, N) == e0 as real * y[0] + e1 as real * y[1] + e2 as real * y[2] + e3 as real * y[3] + e4 as real * y[4]
                                 + e5 as real * y[5] + e6 as real * y[6] + e7 as real * y[7] + e8 as real * y[8] + e9 as real * y[9]
  {
    hide Weighted, Value, Times;
    RowIs(y, i, e0, e1, e2, e3, e4, e5, e6, e7, e8, e9);
    TimesIs(e0 as real, y[0]);
    TimesIs(e1 as real, y[1]);
    TimesIs(e2 as real, y[2]);
    TimesIs(e3 as real, y[3]);
    TimesIs(e4 as real, y[4]);
    TimesIs(e5 as real, y[5]);
    TimesIs(e6 as real, y[6]);
    TimesIs(e7 as real, y[7]);
    TimesIs(e8 as real, y[8]);
    TimesIs(e9 as real, y[9]);
  }

  /** Ten linear equations with these coefficients have no solution but zero. */
  lemma OnlyZero(y0: real, y1: real, y2: real, y3: real, y4: real, y5: real, y6: real, y7: real, y8: real, y9: real)
    requires 2651.0 * y0 + 27807.0 * y1 + 31884.0 * y2 + 12522.0 * y3 + (-22249.0) * y4
             + 23690.0 * y5 + 10342.0 * y6 + (-26515.0) * y7 + (-18758.0) * y8 + (-5201.0) * y9 == 0.0
    requires 5302.0 * y0 + (-9922.0) * y1 + (-1768.0) * y2 + 25044.0 * y3 + 21038.0 * y4
             + (-18156.0) * y5 + 20684.0 * y6 + 12507.0 * y7 + 28021.0 * y8 + (-10402.0) * y9 == 0.0
    requires 10604.0 * y0 + (-19844.0) * y1 + (-3536.0) * y2 + (-15447.0) * y3 + (-23460.0) * y4
             + 29224.0 * y5 + (-24168.0) * y6 + 25014.0 * y7 + (-9493.0) * y8 + (-20804.0) * y9 == 0.0
    requires 21209.0 * y0 + 25849.0 * y1 + (-7071.0) * y2 + (-30894.0) * y3 + 18617.0 * y4
             + (-7088.0) * y5 + 17200.0 * y6 + (-15507.0) * y7 + (-18985.0) * y8 + 23929.0 * y9 == 0.0
    requires (-23118.0) * y0 + (-13838.0) * y1 + (-14141.0) * y2 + 3748.0 * y3 + (-28302.0) * y4
             + (-14175.0) * y5 + (-31135.0) * y6 + (-31014.0) * y7 + 27566.0 * y8 + (-17677.0) * y9 == 0.0
    requires 19300.0 * y0 + (-27676.0) * y1 + (-28281.0) * y2 + 7496.0 * y3 + 8932.0 * y4
             + (-28349.0) * y5 + 3267.0 * y6 + 3509.0 * y7 + (-10403.0) * y8 + 30183.0 * y9 == 0.0
    requires (-26935.0) * y0 + 10184.0 * y1 + 8974.0 * y2 + 14993.0 * y3 + 17864.0 * y4
             + 8838.0 * y5 + 6534.0 * y6 + 7019.0 * y7 + (-20806.0) * y8 + (-5169.0) * y9 == 0.0
    requires 11667.0 * y0 + 20369.0 * y1 + 17949.0 * y2 + 29986.0 * y3 + (-29807.0) * y4
             + 17676.0 * y5 + 13069.0 * y6 + 14039.0 * y7 + 23925.0 * y8 + (-10338.0) * y9 == 0.0
    requires 23335.0 * y0 + (-24797.0) * y1 + (-29638.0) * y2 + (-5563.0) * y3 + 5922.0 * y4
             + (-30183.0) * y5 + 26139.0 * y6 + 28078.0 * y7 + (-17685.0) * y8 + (-20676.0) * y9 == 0.0
    requires (-18865.0) * y0 + 15942.0 * y1 + 6261.0 * y2 + (-11125.0) * y3 + 11845.0 * y4
             + 5171.0 * y5 + (-13258.0) * y6 + (-9379.0) * y7 + 30167.0 * y8 + 24184.0 * y9 == 0.0
    ensures y0 == y1 == y2 == y3 == y4 == y5 == y6 == y7 == y8 == y9 == 0.0
  {
  }

  lemma FirstRows(y: Vec)
    requires |y| == N
    ensures Weighted(y, 0, N) == 2651.0 * y[0] + 27807.0 * y[1] + 31884.0 * y[2] + 12522.0 * y[3] + (-22249.0) * y[4]
             + 23690.0 * y[5] + 10342.0 * y[6] + (-26515.0) * y[7] + (-18758.0) * y[8] + (-5201.0) * y[9]
    ensures Weighted(y, 1, N) == 5302.0 * y[0] + (-9922.0) * y[1] + (-1768.0) * y[2] + 25044.0 * y[3] + 21038.0 * y[4]
             + (-18156.0) * y[5] + 20684.0 * y[6] + 12507.0 * y[7] + 28021.0 * y[8] + (-10402.0) * y[9]
    ensures Weighted(y, 2, N) == 10604.0 * y[0] + (-19844.0) * y[1] + (-3536.0) * y[2] + (-15447.0) * y[3] + (-23460.0) * y[4]
             + 29224.0 * y[5] + (-24168.0) * y[6] + 25014.0 * y[7] + (-9493.0) * y[8] + (-20804.0) * y[9]
  {
    hide Weighted;
    RowSumIs(y, 0, 2651, 27807, 31884, 12522, -22249, 23690, 10342, -26515, -18758, -5201);
    RowSumIs(y, 1, 5302, -9922, -1768, 25044, 21038, -18156, 20684, 12507, 28021, -10402);
    RowSumIs(y, 2, 10604, -19844, -3536, -15447, -23460, 29224, -24168, 25014, -9493, -20804);
  }

  lemma SecondRows(y: Vec)
    requires |y| == N
    ensures Weighted(y, 3, N) == 21209.0 * y[0] + 25849.0 * y[1] + (-7071.0) * y[2] + (-30894.0) * y[3] + 18617.0 * y[4]
             + (-7088.0) * y[5] + 17200.0 * y[6] + (-15507.0) * y[7] + (-18985.0) * y[8] + 23929.0 * y[9]
    ensures Weighted(y, 4, N) == (-23118.0) * y[0] + (-13838.0) * y[1] + (-14141.0) * y[2] + 3748.0 * y[3] + (-28302.0) * y[4]
             + (-14175.0) * y[5] + (-31135.0) * y[6] + (-31014.0) * y[7] + 27566.0 * y[8] + (-17677.0) * y[9]
    ensures Weighted(y, 5, N) == 19300.0 * y[0] + (-27676.0) * y[1] + (-28281.0) * y[2] + 7496.0 * y[3] + 8932.0 * y[4]
             + (-28349.0) * y[5] + 3267.0 * y[6] + 3509.0 * y[7] + (-10403.0) * y[8] + 30183.0 * y[9]
  {
    hide Weighted;
    RowSumIs(y, 3, 21209, 25849, -7071, -30894, 18617, -7088, 17200, -15507, -18985, 23929);
    RowSumIs(y, 4, -23118, -13838, -14141, 3748, -28302, -14175, -31135, -31014, 27566, -17677);
    RowSumIs(y, 5, 19300, -27676, -28281, 7496, 8932, -28349, 3267, 3509, -10403, 30183);
  }

  lemma ThirdRows(y: Vec)
    requires |y| == N
    ensures Weighted(y, 6, N) == (-26935.0) * y[0] + 10184.0 * y[1] + 8974.0 * y[2] + 14993.0 * y[3] + 17864.0 * y[4]
             + 8838.0 * y[5] + 6534.0 * y[6] + 7019.0 * y[7] + (-20806.0) * y[8] + (-5169.0) * y[9]
    ensures Weighted(y, 7, N) == 11667.0 * y[0] + 20369.0 * y[1] + 17949.0 * y[2] + 29986.0 * y[3] + (-29807.0) * y[4]
             + 17676.0 * y[5] + 13069.0 * y[6] + 14039.0 * y[7] + 23925.0 * y[8] + (-10338.0) * y[9]
  {
    hide Weighted;
    RowSumIs(y, 6, -26935, 10184, 8974, 14993, 17864, 8838, 6534, 7019, -20806, -5169);
    RowSumIs(y, 7, 11667, 20369, 17949, 29986, -29807, 17676, 13069, 14039, 23925, -10338);
  }

  lemma FourthRows(y: Vec)
    requires |y| == N
    ensures Weighted(y, 8, N) == 23335.0 * y[0] + (-24797.0) * y[1] + (-29638.0) * y[2] + (-5563.0) * y[3] + 5922.0 * y[4]
             + (-30183.0) * y[5] + 26139.0 * y[6] + 28078.0 * y[7] + (-17685.0) * y[8] + (-20676.0) * y[9]
    ensures Weighted(y, 9, N) == (-18865.0) * y[0] + 15942.0 * y[1] + 6261.0 * y[2] + (-11125.0) * y[3] + 11845.0 * y[4]
             + 5171.0 * y[5] + (-13258.0) * y[6] + (-9379.0) * y[7] + 30167.0 * y[8] + 24184.0 * y[9]
  {
    hide Weighted;
    RowSumIs(y, 8, 23335, -24797, -29638, -5563, 5922, -30183, 26139, 28078, -17685, -20676);
    RowSumIs(y, 9, -18865, 15942, 6261, -11125, 11845, 5171, -13258, -9379, 30167, 24184);
  }

  lemma WeightedIsRegular(y: Vec)
    requires |y| == N && forall i :: 0 <= i < N ==> Weighted(y, i, N) == 0.0
    ensures forall j :: 0 <= j < N ==> y[j] == 0.0
  {
    hide Weighted;
    FirstRows(y);
    SecondRows(y);
    ThirdRows(y);
    FourthRows(y);
    OnlyZero(y[0], y[1], y[2], y[3], y[4], y[5], y[6], y[7], y[8], y[9]);
  }

  lemma ProductIs(a: seq<Vec>, x: Vec, i: nat)
    requires Square(a) && |x| == |a| == N && i < N
    ensures Product(a, x)[i] == Combine(a, x, N)[i]
  {
  }

  lemma GeneratedIsRegular(s: real)
    requires s != 0.0
    ensures !T.Singular(Generated(s))
  {
    var a := Generated(s);
    hide Generated, Product, RowSum, Weighted;
    forall x: Vec | |x| == N && Product(a, x) == Zeros(N) ensures x == Zeros(N) {
      var y: Vec := seq(N, j requires 0 <= j < N => s * x[j]);
      forall i | 0 <= i < N ensures Weighted(y, i, N) == 0.0 {
        RowIsWeighted(s, x, y, i, N);
        CombineByRows(a, x, i, N);
        ProductIs(a, x, i);
      }
      WeightedIsRegular(y);
      forall j | 0 <= j < N ensures x[j] == 0.0 {
        assert y[j] == 0.0;
      }
    }
  }

  // ----- The program -----

  const SCALE: real := 1.0 / 4294967295.0

  /** The array after the first n values, and the rest of an array m. */
  ghost predicate Filled(a: seq<real>, n: nat) {
    |a| == N * N && n <= |a| && forall q: nat :: q < n ==> a[q] == SCALE * Register(q + 1) as real
  }

  lemma FilledIsGenerated(a: seq<real>)
    requires Filled(a, N * N)
    ensures Fits(|a|, N, N) && Columns(a, N, N) == Generated(SCALE)
  {
    var g := Generated(SCALE);
    forall j | 0 <= j < N ensures Column(a, N, N, j) == g[j] {
      forall i | 0 <= i < N ensures Column(a, N, N, j)[i] == g[j][i] {
        ColumnFits(|a|, N, N, j);
        assert a[N * j + i] == SCALE * Register(N * j + i + 1) as real;
        hide Register;
      }
    }
  }

  lemma ScaledEntry(v: real)
    ensures v / 4294967295.0 == SCALE * v
  {
  }

  /** matgen: the register runs through the columns, and b collects the row sums. */
  method Matgen(a: array<real>, b: array<real>)
    requires a.Length == N * N && b.Length == N && a != b
    modifies a, b
    ensures Columns(a[..], N, N) == Generated(SCALE)
    ensures forall i :: 0 <= i < N ==> b[i] == RowSum(Generated(SCALE), T.Ones(N), i, N)
  {
    hide NextRegister, Generated, Columns;
    ghost var g := Generated(SCALE);
    var i := 0;
    while i < N
      invariant 0 <= i <= N && forall p :: 0 <= p < i ==> b[p] == 0.0
    {
      b[i] := 0.0;
      i := i + 1;
    }
    var reg := SEED;
    var j := 0;
    while j < N
      invariant 0 <= j <= N && reg == Register(N * j) && Filled(a[..], N * j)
      invariant forall p :: 0 <= p < N ==> b[p] == RowSum(g, T.Ones(N), p, j)
    {
      i := 0;
      while i < N
        invariant 0 <= i <= N && reg == Register(N * j + i) && Filled(a[..], N * j + i)
        invariant forall p :: 0 <= p < N ==> b[p] == RowSum(g, T.Ones(N), p, if p < i then j + 1 else j)
      {
        reg := NextRegister(reg);
        var aa := reg as real / 4294967295.0;
        ScaledEntry(reg as real);
        GeneratedAt(j, i);
        a[N * j + i] := aa;
        b[i] := b[i] + aa;
        i := i + 1;
      }
      j := j + 1;
    }
    FilledIsGenerated(a[..]);
  }

  lemma GeneratedAt(j: nat, i: nat)
    requires j < N && i < N
    ensures Generated(SCALE)[j][i] == SCALE * Register(N * j + i + 1) as real
  {
  }

  /** With a regular matrix and its row sums there is no solution but ones. */
  lemma OnlyOnes(a: seq<Vec>, b: Vec, x: Vec)
    requires Square(a) && |x| == |b| == |a| > 0 && !T.Singular(a) && Product(a, x) == b
    requires forall i :: 0 <= i < |a| ==> b[i] == RowSum(a, T.Ones(|a|), i, |a|)
    ensures x == T.Ones(|a|)
  {
    hide Combine, RowSum, Product, T.Dgefa, T.DgefaPivots, T.Dgesl, RegularTo, T.Singular;
    T.RegularIffNotSingular(a);
    T.RowSumsGiveOnes(a, b);
    T.SolvesTheSystem(a, b, x);
  }

  /** start: matgen, dgefa, dgesl. It returns 1, the first component of the solution. */
  method Start(a: array<real>, b: array<real>, ipvt: array<int>) returns (r: real, info: int)
    requires a.Length == N * N && b.Length == N && a != b && ipvt.Length == N
    modifies a, b, ipvt
    ensures r == 1.0 && b[..] == T.Ones(N) && info == 0
  {
    hide Generated, Columns, RowSum, Product, T.Singular, Register;
    Matgen(a, b);
    ghost var b0 := b[..];
    ghost var g := Generated(SCALE);
    GeneratedIsRegular(SCALE);
    assert b[..N] == b0;
    info := Solve(a, N, N, ipvt, b);
    assert b[..N] == b[..];
    OnlyOnes(g, b0, b[..]);
    r := b[0];
  }
}
