/** Complex numbers as pairs of exact reals, and polynomials over them. */
module Complex {
  datatype Cx = Cx(re: real, im: real)

  const ZERO := Cx(0.0, 0.0)
  const ONE := Cx(1.0, 0.0)

  function Add(x: Cx, y: Cx): Cx { Cx(x.re + y.re, x.im + y.im) }
  function Sub(x: Cx, y: Cx): Cx { Cx(x.re - y.re, x.im - y.im) }
  function Mul(x: Cx, y: Cx): Cx { Cx(x.re * y.re - x.im * y.im, x.re * y.im + x.im * y.re) }
  function Neg(x: Cx): Cx { Cx(-x.re, -x.im) }

  function Power(z: Cx, k: nat): Cx {
    if k == 0 then ONE else Mul(z, Power(z, k - 1))
  }

  // ----- The laws of a commutative ring -----

  lemma MulCommutes(x: Cx, y: Cx)
    ensures Mul(x, y) == Mul(y, x)
  {
  }

  lemma MulAssociates(x: Cx, y: Cx, z: Cx)
    ensures Mul(Mul(x, y), z) == Mul(x, Mul(y, z))
  {
  }

  lemma MulDistributes(x: Cx, y: Cx, z: Cx)
    ensures Mul(x, Add(y, z)) == Add(Mul(x, y), Mul(x, z))
  {
  }

  lemma MulOne(x: Cx)
    ensures Mul(ONE, x) == x && Mul(x, ONE) == x
  {
  }

  lemma MulZero(x: Cx)
    ensures Mul(x, ZERO) == ZERO && Mul(ZERO, x) == ZERO
  {
  }

  lemma MulNeg(x: Cx, y: Cx)
    ensures Mul(Neg(x), y) == Neg(Mul(x, y)) && Mul(x, Neg(y)) == Neg(Mul(x, y))
  {
  }

  lemma AddSwaps(p: Cx, q: Cx, r: Cx, s: Cx)
    ensures Add(Add(p, q), Add(r, s)) == Add(Add(p, r), Add(q, s))
  {
  }

  lemma NegNeg(x: Cx)
    ensures Neg(Neg(x)) == x
  {
  }

  lemma SquareOfNeg(z: Cx)
    ensures Mul(Neg(z), Neg(z)) == Mul(z, z)
  {
    hide Mul, Neg;
    MulNeg(z, Neg(z));
    MulNeg(z, z);
    NegNeg(Mul(z, z));
  }

  lemma {:induction false} PowerAdd(z: Cx, j: nat, k: nat)
    ensures Power(z, j + k) == Mul(Power(z, j), Power(z, k))
  {
    hide Mul;
    if j == 0 {
      MulOne(Power(z, k));
    } else {
      PowerAdd(z, j - 1, k);
      MulAssociates(z, Power(z, j - 1), Power(z, k));
    }
  }

  lemma PowerOne(z: Cx)
    ensures Power(z, 1) == z
  {
    MulOne(z);
  }

  lemma PowerNext(z: Cx, k: nat)
    ensures Power(z, k + 1) == Mul(z, Power(z, k)) && Power(z, 0) == ONE
  {
    hide Mul;
  }

  /** The powers of a square are the squares of the powers. */
  lemma {:induction false} PowerOfSquare(z: Cx, k: nat)
    ensures Power(Mul(z, z), k) == Power(z, 2 * k)
    ensures Power(Mul(z, z), k) == Mul(Power(z, k), Power(z, k))
  {
    hide Mul, Power;
    PowerAdd(z, k, k);
    if k == 0 {
      PowerNext(z, 0);
      PowerNext(Mul(z, z), 0);
    } else {
      var v := Power(z, 2 * (k - 1));
      PowerOfSquare(z, k - 1);
      PowerNext(Mul(z, z), k - 1);
      PowerNext(z, 2 * k - 1);
      PowerNext(z, 2 * k - 2);
      MulAssociates(z, z, v);
    }
  }

  // ----- Polynomials -----

  /** The polynomial with coefficients x at z, by Horner's rule. */
  function Eval(x: seq<Cx>, z: Cx): Cx {
    if x == [] then ZERO else Add(x[0], Mul(z, Eval(x[1..], z)))
  }

  /** Sum over j < m of x[j] z^j. */
  function PowerSum(x: seq<Cx>, z: Cx, m: nat): Cx
    requires m <= |x|
  {
    if m == 0 then ZERO else Add(PowerSum(x, z, m - 1), Mul(x[m - 1], Power(z, m - 1)))
  }

  lemma AddZero(x: Cx)
    ensures Add(x, ZERO) == x && Add(ZERO, x) == x
  {
  }

  lemma AddAssociates(x: Cx, y: Cx, z: Cx)
    ensures Add(Add(x, y), z) == Add(x, Add(y, z))
  {
  }

  lemma {:induction false} PowerSumFromTail(x: seq<Cx>, z: Cx, m: nat)
    requires 0 < m <= |x|
    ensures PowerSum(x, z, m) == Add(x[0], Mul(z, PowerSum(x[1..], z, m - 1)))
  {
    hide Add, Mul;
    if m == 1 {
      MulOne(x[0]);
      MulZero(z);
      AddZero(x[0]);
      assert PowerSum(x, z, 0) == ZERO;
    } else {
      var t := x[1..];
      PowerSumFromTail(x, z, m - 1);
      var s := PowerSum(t, z, m - 2);
      var v := Power(z, m - 2);
      AddAssociates(x[0], Mul(z, s), Mul(x[m - 1], Mul(z, v)));
      MulDistributes(z, s, Mul(x[m - 1], v));
      MulAssociates(x[m - 1], z, v);
      MulAssociates(z, x[m - 1], v);
      MulCommutes(x[m - 1], z);
    }
  }

  lemma {:induction false} EvalIsSum(x: seq<Cx>, z: Cx)
    ensures Eval(x, z) == PowerSum(x, z, |x|)
  {
    hide Add, Mul;
    if x != [] {
      EvalIsSum(x[1..], z);
      PowerSumFromTail(x, z, |x|);
    }
  }

  // ----- The same in real numbers -----

  /** Real and imaginary part of (c + i s)^j. */
  function PowerRe(c: real, s: real, j: nat): real {
    if j == 0 then 1.0 else c * PowerRe(c, s, j - 1) - s * PowerIm(c, s, j - 1)
  }
  function PowerIm(c: real, s: real, j: nat): real {
    if j == 0 then 0.0 else c * PowerIm(c, s, j - 1) + s * PowerRe(c, s, j - 1)
  }

  /** Real and imaginary part of the sum over j < m of x[j] (c + i s)^j. */
  function SumRe(x: seq<Cx>, c: real, s: real, m: nat): real
    requires m <= |x|
  {
    if m == 0 then 0.0
    else SumRe(x, c, s, m - 1) + (x[m - 1].re * PowerRe(c, s, m - 1) - x[m - 1].im * PowerIm(c, s, m - 1))
  }
  function SumIm(x: seq<Cx>, c: real, s: real, m: nat): real
    requires m <= |x|
  {
    if m == 0 then 0.0
    else SumIm(x, c, s, m - 1) + (x[m - 1].re * PowerIm(c, s, m - 1) + x[m - 1].im * PowerRe(c, s, m - 1))
  }

  lemma {:induction false} PowerInNumbers(c: real, s: real, j: nat)
    ensures Power(Cx(c, s), j) == Cx(PowerRe(c, s, j), PowerIm(c, s, j))
  {
    if j > 0 {
      PowerInNumbers(c, s, j - 1);
    }
  }

  lemma {:induction false} SumInNumbers(x: seq<Cx>, c: real, s: real, m: nat)
    requires m <= |x|
    ensures PowerSum(x, Cx(c, s), m) == Cx(SumRe(x, c, s, m), SumIm(x, c, s, m))
  {
    if m > 0 {
      SumInNumbers(x, c, s, m - 1);
      PowerInNumbers(c, s, m - 1);
      hide Power, PowerRe, PowerIm;
    }
  }
}
