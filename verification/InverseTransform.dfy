/** Transforming with the roots of unity and then with their inverses multiplies every point by their number. */
module InverseTransform {
  import opened NumberTheory
  import opened BitReversal
  import opened Complex
  import opened FourierTransform

  // ----- Products that are zero, or not one -----

  function Scale(x: real, y: real): real {
    x * y
  }

  lemma SameSigns(x: real, y: real)
    requires (x > 0.0 && y > 0.0) || (x < 0.0 && y < 0.0)
    ensures Scale(x, y) > 0.0
  {
  }

  lemma ScaleZero(x: real, y: real)
    requires x != 0.0 && Scale(x, y) == 0.0
    ensures y == 0.0
  {
  }

  /** The square of the absolute value. */
  function Norm(x: Cx): real {
    Scale(x.re, x.re) + Scale(x.im, x.im)
  }

  lemma SquareIsPositive(x: real)
    ensures Scale(x, x) >= 0.0 && (x != 0.0 ==> Scale(x, x) > 0.0)
  {
    if x != 0.0 {
      SameSigns(x, x);
      hide Scale;
    }
  }

  lemma NormIsPositive(x: Cx)
    requires x != ZERO
    ensures Norm(x) > 0.0
  {
    hide Scale;
    SquareIsPositive(x.re);
    SquareIsPositive(x.im);
  }

  lemma NormOfProduct(a: real, b: real, c: real, d: real, p: real, q: real)
    requires p == a * c - b * d && q == a * d + b * c
    ensures Scale(Scale(a, a) + Scale(b, b), c) == Scale(a, p) + Scale(b, q)
    ensures Scale(Scale(a, a) + Scale(b, b), d) == Scale(a, q) - Scale(b, p)
  {
  }

  lemma ScaleByZero(x: real)
    ensures Scale(x, 0.0) == 0.0
  {
  }

  /** The complex numbers have no zero divisors. */
  lemma NoZeroDivisors(x: Cx, y: Cx)
    requires x != ZERO && Mul(x, y) == ZERO
    ensures y == ZERO
  {
    hide Scale;
    NormOfProduct(x.re, x.im, y.re, y.im, 0.0, 0.0);
    ScaleByZero(x.re);
    ScaleByZero(x.im);
    NormIsPositive(x);
    ScaleZero(Norm(x), y.re);
    ScaleZero(Norm(x), y.im);
  }

  lemma {:induction false} PowerOfPower(z: Cx, j: nat, k: nat)
    ensures Power(Power(z, j), k) == Power(z, j * k)
  {
    hide Mul;
    if k == 0 {
      assert j * 0 == 0;
    } else {
      PowerOfPower(z, j, k - 1);
      PowerAdd(z, j, j * (k - 1));
      assert j + j * (k - 1) == j * k;
    }
  }

  lemma {:induction false} PowerOfProduct(x: Cx, y: Cx, k: nat)
    ensures Power(Mul(x, y), k) == Mul(Power(x, k), Power(y, k))
  {
    hide Mul;
    if k == 0 {
      MulOne(ONE);
    } else {
      PowerOfProduct(x, y, k - 1);
      var p, q := Power(x, k - 1), Power(y, k - 1);
      MulAssociates(x, y, Mul(p, q));
      MulAssociates(y, p, q);
      MulCommutes(y, p);
      MulAssociates(p, y, q);
      MulAssociates(x, p, Mul(y, q));
    }
  }

  lemma {:induction false} PowerOfOne(k: nat)
    ensures Power(ONE, k) == ONE
  {
    hide Mul;
    if k > 0 {
      PowerOfOne(k - 1);
      MulOne(ONE);
    }
  }

  lemma {:induction false} PowerOfMinusOne(k: nat)
    ensures Power(Neg(ONE), k) == if k % 2 == 0 then ONE else Neg(ONE)
  {
    hide Mul, Neg;
    if k > 0 {
      PowerOfMinusOne(k - 1);
      MulOne(Neg(ONE));
      MulNeg(ONE, Neg(ONE));
      MulNeg(ONE, ONE);
      MulOne(ONE);
      NegNeg(ONE);
      MulOne(Neg(Neg(ONE)));
    }
  }

  lemma MinusOneIsNotOne()
    ensures Neg(ONE) != ONE
  {
  }

  /** The roots are primitive: no lower power is one. */
  lemma {:induction false} RootIsPrimitive(w: seq<Cx>, s: nat, d: nat)
    requires Roots(w) && 1 <= s < |w| && 0 < d < Two(s)
    ensures Power(w[s], d) != ONE
    decreases s
  {
    hide Mul, Neg, Power, Two;
    if d % 2 == 1 {
      OddPower(w, s, d);
    } else {
      Doubled(s);
      TwoOfFirst(s);
      var h := d / 2;
      assert d == 2 * h;
      RootIsPrimitive(w, s - 1, h);
      PowerOfSquare(w[s], h);
    }
  }

  lemma TwoOfFirst(s: nat)
    requires s >= 1
    ensures Two(s) >= 2 && (s == 1 ==> Two(s) == 2)
  {
  }

  lemma OddPower(w: seq<Cx>, s: nat, d: nat)
    requires Roots(w) && 1 <= s < |w| && d % 2 == 1
    ensures Power(w[s], d) != ONE
  {
    hide Mul, Neg, Power, Two;
    var h := Two(s - 1);
    HalfTurn(w, s);
    PowerOfPower(w[s], h, d);
    PowerOfPower(w[s], d, h);
    assert h * d == d * h;
    PowerOfMinusOne(d);
    PowerOfOne(h);
    MinusOneIsNotOne();
  }

  // ----- Geometric sums -----

  /** Sum over p < n of z^p. */
  function Geometric(z: Cx, n: nat): Cx {
    if n == 0 then ZERO else Add(Geometric(z, n - 1), Power(z, n - 1))
  }

  lemma Telescope(z: Cx, g: Cx, p: Cx)
    requires Mul(Sub(z, ONE), g) == Sub(p, ONE)
    ensures Mul(Sub(z, ONE), Add(g, p)) == Sub(Mul(z, p), ONE)
  {
  }

  lemma {:induction false} GeometricTimes(z: Cx, n: nat)
    ensures Mul(Sub(z, ONE), Geometric(z, n)) == Sub(Power(z, n), ONE)
  {
    hide Mul, Add, Sub;
    if n == 0 {
      MulZero(Sub(z, ONE));
      SubSelf(ONE);
    } else {
      GeometricTimes(z, n - 1);
      Telescope(z, Geometric(z, n - 1), Power(z, n - 1));
    }
  }

  lemma SubSelf(z: Cx)
    ensures Sub(z, z) == ZERO
  {
  }

  lemma GeometricIsZero(z: Cx, n: nat)
    requires z != ONE && Power(z, n) == ONE
    ensures Geometric(z, n) == ZERO
  {
    GeometricTimes(z, n);
    assert Sub(z, ONE) != ZERO;
    SubSelf(ONE);
    hide Mul, Sub, Geometric, Power;
    NoZeroDivisors(Sub(z, ONE), Geometric(z, n));
  }

  lemma {:induction false} GeometricOfOne(n: nat)
    ensures Geometric(ONE, n) == Cx(n as real, 0.0)
  {
    hide Power, Mul;
    if n > 0 {
      GeometricOfOne(n - 1);
      PowerOfOne(n - 1);
    }
  }

  lemma FullTurn(w: seq<Cx>, s: nat)
    requires Roots(w) && 1 <= s < |w|
    ensures Power(w[s], Two(s)) == ONE
  {
    hide Mul, Neg, Power, Two;
    HalfTurn(w, s);
    Doubled(s);
    PowerAdd(w[s], Two(s - 1), Two(s - 1));
    MulNeg(ONE, Neg(ONE));
    MulOne(Neg(ONE));
    NegNeg(ONE);
  }

  lemma GeometricOfRoot(w: seq<Cx>, s: nat, d: nat)
    requires Roots(w) && 1 <= s < |w| && 0 < d < Two(s)
    ensures Geometric(Power(w[s], d), Two(s)) == ZERO
  {
    hide Mul, Neg, Power, Two, Geometric;
    RootIsPrimitive(w, s, d);
    PowerOfPower(w[s], d, Two(s));
    PowerOfPower(w[s], Two(s), d);
    assert d * Two(s) == Two(s) * d;
    FullTurn(w, s);
    PowerOfOne(d);
    GeometricIsZero(Power(w[s], d), Two(s));
  }

  // ----- The transform of a transform -----

  /** Sum over p < n of x(w^p) u^p. */
  function TwiceSum(x: seq<Cx>, w: Cx, u: Cx, n: nat): Cx {
    if n == 0 then ZERO
    else Add(TwiceSum(x, w, u, n - 1), Mul(Eval(x, Power(w, n - 1)), Power(u, n - 1)))
  }

  lemma SplitTerm(x0: Cx, z: Cx, e: Cx, q: Cx)
    ensures Mul(Add(x0, Mul(z, e)), q) == Add(Mul(x0, q), Mul(e, Mul(z, q)))
  {
    hide Mul, Add;
    MulCommutes(Add(x0, Mul(z, e)), q);
    MulDistributes(q, x0, Mul(z, e));
    MulCommutes(q, x0);
    MulCommutes(z, e);
    MulCommutes(q, Mul(e, z));
    MulAssociates(e, z, q);
  }

  /** The sum over p can be taken coefficient by coefficient. */
  lemma {:induction false} TwiceSumFirst(x: seq<Cx>, w: Cx, u: Cx, n: nat)
    requires x != []
    ensures TwiceSum(x, w, u, n) == Add(Mul(x[0], Geometric(u, n)), TwiceSum(x[1..], w, Mul(w, u), n))
  {
    if n == 0 {
      MulZero(x[0]);
      AddZero(ZERO);
    } else {
      TwiceSumFirst(x, w, u, n - 1);
      var z, q, e := Power(w, n - 1), Power(u, n - 1), Eval(x[1..], Power(w, n - 1));
      assert Eval(x, z) == Add(x[0], Mul(z, e));
      PowerOfProduct(w, u, n - 1);
      SplitTerm(x[0], z, e, q);
      MulDistributes(x[0], Geometric(u, n - 1), q);
      hide Mul, Add, Eval, Power;
      AddSwaps(Mul(x[0], Geometric(u, n - 1)), TwiceSum(x[1..], w, Mul(w, u), n - 1), Mul(x[0], q), Mul(e, Mul(z, q)));
    }
  }

  lemma {:induction false} TwiceSumEmpty(w: Cx, u: Cx, n: nat, x: seq<Cx>)
    requires x == []
    ensures TwiceSum(x, w, u, n) == ZERO
  {
    hide Mul, Add;
    if n > 0 {
      TwiceSumEmpty(w, u, n - 1, x);
      MulZero(Power(u, n - 1));
      AddZero(ZERO);
    }
  }

  /** Coefficients beyond the one looked for do not come through. */
  lemma {:induction false} TwiceSumBeyond(x: seq<Cx>, w: seq<Cx>, k: nat, d: nat)
    requires Roots(w) && 1 <= k < |w| && 0 < d && d + |x| <= Two(k)
    ensures TwiceSum(x, w[k], Power(w[k], d), Two(k)) == ZERO
    decreases |x|
  {
    hide Mul, Add, Roots, Two, Geometric, TwiceSum;
    if x == [] {
      TwiceSumEmpty(w[k], Power(w[k], d), Two(k), x);
    } else {
      TwiceSumFirst(x, w[k], Power(w[k], d), Two(k));
      GeometricOfRoot(w, k, d);
      TwiceSumBeyond(x[1..], w, k, d + 1);
      PowerNext(w[k], d);
      MulZero(x[0]);
      AddZero(ZERO);
    }
  }

  /** The inverse roots. */
  ghost predicate Inverses(w: seq<Cx>, v: seq<Cx>, k: nat) {
    Roots(w) && Roots(v) && 1 <= k < |w| && k < |v| && Mul(w[k], v[k]) == ONE
  }

  lemma PowerBack(w: Cx, v: Cx, m: nat)
    requires Mul(w, v) == ONE && m > 0
    ensures Mul(w, Power(v, m)) == Power(v, m - 1)
  {
    hide Mul;
    MulAssociates(w, v, Power(v, m - 1));
    MulOne(Power(v, m - 1));
  }

  function Times(n: nat, z: Cx): Cx {
    Mul(z, Cx(n as real, 0.0))
  }

  lemma {:induction false} TwiceSumAt(x: seq<Cx>, w: seq<Cx>, v: seq<Cx>, k: nat, m: nat)
    requires Inverses(w, v, k) && m < |x| <= m + Two(k) && m < Two(k)
    ensures TwiceSum(x, w[k], Power(v[k], m), Two(k)) == Times(Two(k), x[m])
    decreases m
  {
    hide Mul, Add, Roots, Two, Geometric, TwiceSum;
    TwiceSumFirst(x, w[k], Power(v[k], m), Two(k));
    if m == 0 {
      PowerNext(v[k], 0);
      GeometricOfOne(Two(k));
      MulOne(w[k]);
      PowerOne(w[k]);
      TwiceSumBeyond(x[1..], w, k, 1);
      AddZero(Mul(x[0], Geometric(ONE, Two(k))));
    } else {
      GeometricOfRoot(v, k, m);
      PowerBack(w[k], v[k], m);
      TwiceSumAt(x[1..], w, v, k, m - 1);
      MulZero(x[0]);
      AddZero(Times(Two(k), x[m]));
    }
  }

  lemma {:induction false} PowerSumIsTwiceSum(y: seq<Cx>, x: seq<Cx>, w: Cx, u: Cx, n: nat)
    requires n <= |y| && forall p :: 0 <= p < n ==> y[p] == Eval(x, Power(w, p))
    ensures PowerSum(y, u, n) == TwiceSum(x, w, u, n)
  {
    hide Mul, Add, Eval, Power;
    if n > 0 {
      PowerSumIsTwiceSum(y, x, w, u, n - 1);
    }
  }

  /** Round trip: the transform with the inverse roots undoes the transform, but for the factor n. */
  lemma InverseUndoes(x: seq<Cx>, w: seq<Cx>, v: seq<Cx>, k: nat, m: nat)
    requires Inverses(w, v, k) && |x| == Two(k) && m < Two(k)
    ensures var y := Butterflies(Reversed(k, x), k, w);
      Butterflies(Reversed(k, y), k, v)[m] == Times(Two(k), x[m])
  {
    hide Mul, Two, Roots, Butterflies, Reversed, Eval, Power, PowerSum, TwiceSum, Times;
    var y := Butterflies(Reversed(k, x), k, w);
    forall p | 0 <= p < Two(k) ensures y[p] == Eval(x, Power(w[k], p)) {
      FftIsDft(x, k, w, p);
    }
    FftIsDft(y, k, v, m);
    EvalIsSum(y, Power(v[k], m));
    PowerSumIsTwiceSum(y, x, w[k], Power(v[k], m), Two(k));
    TwiceSumAt(x, w, v, k, m);
  }
}
