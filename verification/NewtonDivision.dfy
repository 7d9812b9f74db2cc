/** The three dividers that work by Newton's iteration: divide of fft.c, divide of linpack.c, and fpdiv64. In exact
    arithmetic each of the four steps squares the residual 1 - d x. */
module NewtonDivision {

  function Times(x: real, y: real): real {
    x * y
  }

  function Step(d: real, x: real): real {
    x * (2.0 - d * x)
  }

  function FourSteps(d: real, x: real): real {
    Step(d, Step(d, Step(d, Step(d, x))))
  }

  function Residual(d: real, x: real): real {
    1.0 - d * x
  }

  lemma StepSquares(d: real, x: real)
    ensures Residual(d, Step(d, x)) == Residual(d, x) * Residual(d, x)
  {
  }

  function Sixteenth(e: real): real {
    var e2 := e * e;
    var e4 := e2 * e2;
    var e8 := e4 * e4;
    e8 * e8
  }

  lemma FourStepsResidual(d: real, x: real)
    ensures Residual(d, FourSteps(d, x)) == Sixteenth(Residual(d, x))
  {
    hide Residual, Step;
    StepSquares(d, x);
    StepSquares(d, Step(d, x));
    StepSquares(d, Step(d, Step(d, x)));
    StepSquares(d, Step(d, Step(d, Step(d, x))));
  }

  lemma SquareBound(e: real, b: real)
    requires -b <= e <= b
    ensures 0.0 <= e * e <= b * b
  {
    assert (b - e) * (b + e) >= 0.0;
  }

  lemma SixteenthBound(e: real, b: real)
    requires -b <= e <= b
    ensures 0.0 <= Sixteenth(e) <= Sixteenth(b)
  {
    SquareBound(e, b);
    var e2, b2 := e * e, b * b;
    SquareBound(e2, b2);
    var e4, b4 := e2 * e2, b2 * b2;
    SquareBound(e4, b4);
    SquareBound(e4 * e4, b4 * b4);
  }

  lemma NonNegative(x: real, y: real)
    requires (x >= 0.0 && y >= 0.0) || (x <= 0.0 && y <= 0.0)
    ensures x * y >= 0.0
  {
  }

  /** d squared, between a tangent and a chord. */
  lemma UnitParabola(d: real)
    requires 0.5 <= d <= 1.0
    ensures 1.5 * d - 0.5625 <= d * d <= 1.5 * d - 0.5
  {
    NonNegative(d - 0.75, d - 0.75);
    NonNegative(d - 0.5, 1.0 - d);
    assert (d - 0.75) * (d - 0.75) == d * d - 1.5 * d + 0.5625;
    assert (d - 0.5) * (1.0 - d) == 1.5 * d - 0.5 - d * d;
  }

  /** The residual of the straight line c0 - c1 d over [1/2, 1]. */
  lemma FirstResidual(c0: real, c1: real, d: real)
    requires 0.5 <= d <= 1.0 && c1 >= 0.0
    ensures 1.0 - 0.5625 * c1 + (1.5 * c1 - c0) * d <= Residual(d, c0 - c1 * d) <= 1.0 - 0.5 * c1 + (1.5 * c1 - c0) * d
  {
    UnitParabola(d);
    LineResidual(c0, c1, d);
    ScaleBound(c1, 1.5 * d - 0.5625, d * d);
    ScaleBound(c1, d * d, 1.5 * d - 0.5);
    LineBound(c0, c1, d, 0.5625);
    LineBound(c0, c1, d, 0.5);
    hide Residual, Times;
  }

  lemma LineResidual(c0: real, c1: real, d: real)
    ensures Residual(d, c0 - c1 * d) == 1.0 - c0 * d + Times(c1, d * d)
  {
  }

  lemma LineBound(c0: real, c1: real, d: real, a: real)
    ensures 1.0 - a * c1 + (1.5 * c1 - c0) * d == 1.0 - c0 * d + Times(c1, 1.5 * d - a)
  {
  }

  lemma ScaleBound(c: real, x: real, y: real)
    requires c >= 0.0 && x <= y
    ensures Times(c, x) <= Times(c, y)
  {
  }

  /** r is the quotient of n by d, but for the relative error e. */
  ghost predicate Off(r: real, n: real, d: real, e: real)
    requires d != 0.0
  {
    r == n / d * (1.0 - e)
  }

  /** The relative error is at most bound, and r is never too large in absolute value. */
  ghost predicate IsQuotient(r: real, n: real, d: real, bound: real)
    requires d != 0.0
  {
    exists e: real :: Off(r, n, d, e) && 0.0 <= e <= bound
  }

  lemma QuotientError(n: real, d: real, x: real)
    requires d != 0.0
    ensures Off(Times(n, x), n, d, Residual(d, x))
  {
    var q := n / d;
    assert n == q * d;
    assert (q * d) * x == q * (d * x);
  }

  lemma NewtonQuotient(n: real, d: real, x: real, b: real, bound: real)
    requires d != 0.0 && -b <= Residual(d, x) <= b && Sixteenth(b) <= bound
    ensures IsQuotient(Times(n, FourSteps(d, x)), n, d, bound)
  {
    hide FourSteps, Residual, Sixteenth, Off, Times;
    FourStepsResidual(d, x);
    SixteenthBound(Residual(d, x), b);
    QuotientError(n, d, FourSteps(d, x));
    var e := Residual(d, FourSteps(d, x));
    assert Off(Times(n, FourSteps(d, x)), n, d, e) && 0.0 <= e <= bound;
  }

  // ----- The divide of fft.c and linpack.c -----

  const ERROR_FFT := 0.00000000000000001

  lemma FftLine(d: real)
    requires 0.5 <= d <= 1.0
    ensures -0.0858 <= Residual(d, 2.9142 - 2.0 * d) <= 0.0858
  {
    FirstResidual(2.9142, 2.0, d);
    hide Residual;
  }

  lemma FftBound()
    ensures Sixteenth(0.0858) <= ERROR_FFT
  {
  }

  lemma HalfFloor(x: real)
    requires x >= 1.0
    ensures (x / 2.0).Floor < x.Floor
  {
  }

  lemma PositiveFactor(y: real, d: real)
    requires d > 0.0 && y * d >= 0.0
    ensures y >= 0.0
  {
  }

  lemma Doubling(d: real)
    requires 0.0 < d <= 0.5
    ensures (1.0 / (2.0 * d)).Floor < (1.0 / d).Floor && (1.0 / d).Floor >= 0
  {
    var x := 1.0 / d;
    assert x * d == 1.0;
    assert (x - 2.0) * d == x * d - 2.0 * d;
    PositiveFactor(x - 2.0, d);
    HalfFloor(x);
    assert 1.0 / (2.0 * d) == x / 2.0;
  }

  /** Scaling both by two does not change the quotient. */
  lemma SameQuotient(n: real, d: real)
    requires d != 0.0
    ensures (2.0 * n) / (2.0 * d) == n / d && (0.5 * n) / (0.5 * d) == n / d
  {
    var q := n / d;
    assert n == q * d;
    assert (2.0 * n) == q * (2.0 * d) && (0.5 * n) == q * (0.5 * d);
  }

  function Quotient(n: real, d: real): real
    requires d != 0.0
  {
    n / d
  }

  /** The two loops that bring the divisor into [1/2, 1]; strict says whether 1/2 itself is doubled, as in linpack.c. */
  method Normalise(n0: real, d0: real, strict: bool) returns (n: real, d: real)
    requires d0 > 0.0
    ensures 0.5 <= d <= 1.0 && (strict ==> d > 0.5) && Quotient(n, d) == Quotient(n0, d0)
  {
    hide Quotient;
    n, d := n0, d0;
    while d < 0.5 || (strict && d == 0.5)
      invariant d > 0.0 && Quotient(n, d) == Quotient(n0, d0)
      decreases (1.0 / d).Floor
    {
      Doubling(d);
      SameQuotients(n, d);
      d, n := 2.0 * d, 2.0 * n;
    }
    while d > 1.0
      invariant d >= 0.5 && (strict ==> d > 0.5) && Quotient(n, d) == Quotient(n0, d0)
      decreases d.Floor
    {
      HalfFloor(d);
      SameQuotients(n, d);
      d, n := 0.5 * d, 0.5 * n;
    }
  }

  lemma SameQuotients(n: real, d: real)
    requires d != 0.0
    ensures Quotient(2.0 * n, 2.0 * d) == Quotient(n, d) && Quotient(0.5 * n, 0.5 * d) == Quotient(n, d)
  {
    SameQuotient(n, d);
  }

  lemma IsTheQuotient(n: real, d: real, q: real)
    requires d != 0.0 && n == q * d
    ensures n / d == q
  {
  }

  lemma SignedQuotient(r: real, n: real, d: real, bound: real)
    requires d > 0.0 && IsQuotient(r, n, d, bound)
    ensures IsQuotient(-r, -n, d, bound) && IsQuotient(-r, n, -d, bound) && IsQuotient(r, -n, -d, bound)
  {
    var e: real :| Off(r, n, d, e) && 0.0 <= e <= bound;
    var q := n / d;
    IsTheQuotient(-n, d, -q);
    IsTheQuotient(n, -d, -q);
    IsTheQuotient(-n, -d, q);
    assert (-q) * (1.0 - e) == -(q * (1.0 - e));
    assert Off(-r, -n, d, e) && Off(-r, n, -d, e) && Off(r, -n, -d, e);
  }

  lemma QuotientOfNormalised(r: real, n: real, d: real, n0: real, d0: real, bound: real)
    requires d != 0.0 && d0 != 0.0 && Quotient(n, d) == Quotient(n0, d0) && IsQuotient(r, n, d, bound)
    ensures IsQuotient(r, n0, d0, bound)
  {
    var e: real :| Off(r, n, d, e) && 0.0 <= e <= bound;
    assert Off(r, n0, d0, e);
  }

  /** The iteration that both programs share. */
  method Iterate(n: real, d: real) returns (r: real)
    requires 0.5 <= d <= 1.0
    ensures IsQuotient(r, n, d, ERROR_FFT)
  {
    FftLine(d);
    FftBound();
    NewtonQuotient(n, d, 2.9142 - 2.0 * d, 0.0858, ERROR_FFT);
    hide IsQuotient, Residual, Sixteenth, Step, Times;
    var x := 2.9142 - 2.0 * d;
    x := Step(d, x);
    x := Step(d, x);
    x := Step(d, x);
    x := Step(d, x);
    r := Times(n, x);
  }

  /** divide of fft.c. A zero divisor is not refused: it multiplies by 16 * 2.9142. */
  method DivideFft(dividend: real, divisor: real) returns (r: real)
    ensures divisor != 0.0 ==> IsQuotient(r, dividend, divisor, 0.00000000000000001)
    ensures divisor == 0.0 ==> r == 46.6272 * dividend
  {
    var n, d, sign := dividend, divisor, 1;
    if n < 0.0 {
      n, sign := -n, -sign;
    }
    if d < 0.0 {
      d, sign := -d, -sign;
    }
    if d > 0.0 {
      ghost var n0, d0 := n, d;
      n, d := Normalise(n, d, false);
      r := Iterate(n, d);
      QuotientOfNormalised(r, n, d, n0, d0, ERROR_FFT);
      SignedQuotient(r, n0, d0, ERROR_FFT);
    } else {
      var x := 2.9142 - 2.0 * d;
      x := Step(d, Step(d, Step(d, Step(d, x))));
      r := n * x;
    }
    hide IsQuotient;
    if sign == -1 {
      r := -r;
    }
  }

  // ----- When the loops end -----

  /** The divisor after n passes of the loop that doubles it. */
  function DoubledTimes(d: real, n: nat): real {
    if n == 0 then d else 2.0 * DoubledTimes(d, n - 1)
  }

  lemma {:induction false} DoublingGrows(d: real, n: nat)
    requires d >= 0.0
    ensures DoubledTimes(d, n) >= Times(n as real + 1.0, d)
    ensures d == 0.0 ==> DoubledTimes(d, n) == 0.0
  {
    if n > 0 {
      DoublingGrows(d, n - 1);
      assert DoubledTimes(d, n) == 2.0 * DoubledTimes(d, n - 1);
      TwiceAsMuch(n as real, d);
      hide Times;
    }
  }

  lemma TwiceAsMuch(k: real, d: real)
    requires k >= 1.0 && d >= 0.0
    ensures 2.0 * Times(k, d) >= Times(k + 1.0, d)
  {
    NotNegative(k - 1.0, d);
    assert 2.0 * (k * d) == (k + 1.0) * d + (k - 1.0) * d;
  }

  lemma NotNegative(x: real, y: real)
    requires x >= 0.0 && y >= 0.0
    ensures x * y >= 0.0
  {
  }

  lemma Reciprocal(d: real) returns (q: real)
    requires d > 0.0
    ensures q > 0.0 && Times(q, d) == 1.0
  {
    q := 1.0 / d;
  }

  lemma Above(q: real) returns (n: nat)
    requires q > 0.0
    ensures q < n as real + 1.0
  {
    n := q.Floor;
  }

  lemma MoreTimes(q: real, k: real, d: real)
    requires q < k && d > 0.0
    ensures Times(k, d) >= Times(q, d)
  {
    NotNegative(k - q, d);
    assert k * d == q * d + (k - q) * d;
  }

  lemma EnoughPasses(d: real) returns (n: nat)
    requires d > 0.0
    ensures Times(n as real + 1.0, d) >= 1.0
  {
    hide Times;
    var q := Reciprocal(d);
    n := Above(q);
    MoreTimes(q, n as real + 1.0, d);
  }

  /** In linpack.c the loop ends exactly for a divisor that is not zero. */
  lemma LoopEndsIff(d: real)
    requires d >= 0.0
    ensures (exists n: nat :: DoubledTimes(d, n) > 0.5) <==> d != 0.0
  {
    if d == 0.0 {
      forall n: nat ensures DoubledTimes(d, n) == 0.0 {
        DoublingGrows(d, n);
      }
    } else {
      var n := EnoughPasses(d);
      DoublingGrows(d, n);
      hide DoubledTimes, Times;
      assert DoubledTimes(d, n) > 0.5;
    }
  }

  /** divide of linpack.c, whose first loop does not end for a zero divisor (LoopEndsIff). */
  method DivideLinpack(dividend: real, divisor: real) returns (r: real)
    requires divisor != 0.0
    ensures IsQuotient(r, dividend, divisor, 0.00000000000000001)
  {
    var n, d, sign := dividend, divisor, 1;
    if n < 0.0 {
      n, sign := -n, -sign;
    }
    if d < 0.0 {
      d, sign := -d, -sign;
    }
    ghost var n0, d0 := n, d;
    n, d := Normalise(n, d, true);
    r := Iterate(n, d);
    QuotientOfNormalised(r, n, d, n0, d0, ERROR_FFT);
    SignedQuotient(r, n0, d0, ERROR_FFT);
    hide IsQuotient;
    if sign == -1 {
      r := -r;
    }
  }
}
