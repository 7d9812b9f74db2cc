/** The fast Fourier transform: butterflies on a bit-reversed sequence evaluate its polynomial at the powers of a root
    of unity. */
module FourierTransform {
  import opened NumberTheory
  import opened BitReversal
  import opened Complex

  // ----- The two halves of a polynomial -----

  lemma EvensOfTail<T>(x: seq<T>)
    requires |x| >= 2
    ensures Evens(x)[0] == x[0] && Evens(x)[1..] == Evens(x[2..])
    ensures Odds(x)[0] == x[1] && Odds(x)[1..] == Odds(x[2..])
  {
  }

  lemma Regroup(x0: Cx, x1: Cx, z: Cx, e: Cx, o: Cx)
    ensures Add(x0, Mul(z, Add(x1, Mul(z, Add(e, Mul(z, o))))))
         == Add(Add(x0, Mul(Mul(z, z), e)), Mul(z, Add(x1, Mul(Mul(z, z), o))))
  {
    hide Add, Mul;
    MulDistributes(z, e, Mul(z, o));
    MulDistributes(z, x1, Add(Mul(z, e), Mul(z, Mul(z, o))));
    MulDistributes(z, Mul(z, e), Mul(z, Mul(z, o)));
    MulDistributes(z, x1, Mul(Mul(z, z), o));
    MulAssociates(z, z, e);
    MulAssociates(z, z, o);
    var ze, zo, zx := Mul(Mul(z, z), e), Mul(z, Mul(Mul(z, z), o)), Mul(z, x1);
    AddAssociates(zx, ze, zo);
    AddAssociates(x0, ze, Add(zx, zo));
    AddAssociates(ze, zx, zo);
    AddCommutes(ze, zx);
  }

  lemma AddCommutes(x: Cx, y: Cx)
    ensures Add(x, y) == Add(y, x)
  {
  }

  lemma {:induction false} EvalHalves(x: seq<Cx>, z: Cx)
    requires |x| % 2 == 0
    ensures Eval(x, z) == Add(Eval(Evens(x), Mul(z, z)), Mul(z, Eval(Odds(x), Mul(z, z))))
  {
    if x == [] {
      MulZero(z);
      AddZero(ZERO);
    } else {
      EvalHalves(x[2..], z);
      EvensOfTail(x);
      hide Add, Mul, Evens, Odds;
      var w := Mul(z, z);
      Regroup(x[0], x[1], z, Eval(Evens(x[2..]), w), Eval(Odds(x[2..]), w));
      assert x[1..][1..] == x[2..];
    }
  }

  // ----- Butterflies -----

  /** The roots used by the stages: the first is -1, and each is the square of the next. */
  ghost predicate Roots(w: seq<Cx>) {
    && (|w| > 1 ==> w[1] == Neg(ONE))
    && forall s :: 1 <= s < |w| - 1 ==> Mul(w[s + 1], w[s + 1]) == w[s]
  }

  /** Half way round, a root gives -1. */
  lemma {:induction false} HalfTurn(w: seq<Cx>, s: nat)
    requires Roots(w) && 1 <= s < |w|
    ensures Power(w[s], Two(s - 1)) == Neg(ONE)
  {
    hide Mul, Neg;
    if s == 1 {
      PowerOne(w[1]);
    } else {
      HalfTurn(w, s - 1);
      PowerOfSquare(w[s], Two(s - 2));
      Doubled(s - 1);
      hide Power;
    }
  }

  /** One entry of the merge of two blocks of size h. */
  function Butterfly(c: seq<Cx>, h: nat, w: Cx, p: nat): Cx
    requires |c| == 2 * h && p < 2 * h
  {
    if p < h then Add(c[p], Mul(Power(w, p), c[p + h])) else Sub(c[p - h], Mul(Power(w, p - h), c[p]))
  }

  function Merge(c: seq<Cx>, h: nat, w: Cx): (r: seq<Cx>)
    requires |c| == 2 * h
    ensures |r| == |c|
  {
    seq(2 * h, p requires 0 <= p < 2 * h => Butterfly(c, h, w, p))
  }

  /** All stages up to block size Two(s), as a recursion on the block. */
  function Butterflies(c: seq<Cx>, s: nat, w: seq<Cx>): (r: seq<Cx>)
    requires |c| == Two(s) && s < |w|
    ensures |r| == |c|
  {
    if s == 0 then c
    else
      var h := Two(s - 1);
      Merge(Butterflies(c[..h], s - 1, w) + Butterflies(c[h..], s - 1, w), h, w[s])
  }

  lemma SubIsAdd(x: Cx, y: Cx)
    ensures Sub(x, y) == Add(x, Neg(y))
  {
  }

  /** What a butterfly does when its block holds the values of the two halves of x at the powers of the square root. */
  lemma ButterflyEvaluates(x: seq<Cx>, c: seq<Cx>, h: nat, w: Cx, p: nat)
    requires |x| == |c| == 2 * h && p < 2 * h && Power(w, h) == Neg(ONE)
    requires forall q :: 0 <= q < h ==> c[q] == Eval(Evens(x), Power(Mul(w, w), q))
    requires forall q :: 0 <= q < h ==> c[q + h] == Eval(Odds(x), Power(Mul(w, w), q))
    ensures Butterfly(c, h, w, p) == Eval(x, Power(w, p))
  {
    var q := if p < h then p else p - h;
    var z := Power(w, q);
    PowerOfSquare(w, q);
    assert c[q] == Eval(Evens(x), Mul(z, z)) && c[q + h] == Eval(Odds(x), Mul(z, z));
    hide Eval, Evens, Odds, Add, Mul, Sub, Neg, Power;
    if p < h {
      EvalHalves(x, z);
    } else {
      PowerAdd(w, h, q);
      MulNeg(ONE, z);
      MulOne(z);
      EvalHalves(x, Neg(z));
      SquareOfNeg(z);
      MulNeg(z, c[p]);
      SubIsAdd(c[q], Mul(z, c[p]));
    }
  }

  lemma EvalOne(x: seq<Cx>, z: Cx)
    requires |x| == 1
    ensures Eval(x, z) == x[0]
  {
    MulZero(z);
    AddZero(x[0]);
    hide Add, Mul;
    assert x[1..] == [];
    EvalEmpty(x[1..], z);
  }

  lemma EvalEmpty(x: seq<Cx>, z: Cx)
    requires x == []
    ensures Eval(x, z) == ZERO
  {
  }

  lemma OnePoint(x: seq<Cx>, s: nat, w: seq<Cx>)
    requires s == 0 && |x| == Two(s) && s < |w|
    ensures |x| == 1 && Reversed(s, x) == x && Butterflies(x, s, w) == x
  {
    hide Merge;
  }

  /** After bit reversal, the butterflies give the discrete Fourier transform. */
  lemma {:induction false} FftIsDft(x: seq<Cx>, s: nat, w: seq<Cx>, p: nat)
    requires |x| == Two(s) && s < |w| && Roots(w) && p < Two(s)
    ensures Butterflies(Reversed(s, x), s, w)[p] == Eval(x, Power(w[s], p))
    decreases s
  {
    hide Eval, Evens, Odds, Power, Mul, Reversed, Roots, Butterflies;
    if s == 0 {
      OnePoint(x, s, w);
      EvalOne(x, Power(w[s], p));
    } else {
      hide Two;
      var h := Two(s - 1);
      Doubled(s);
      ReversedHalves(s, x);
      HalfTurn(w, s);
      var re, ro := Reversed(s - 1, Evens(x)), Reversed(s - 1, Odds(x));
      var c := Butterflies(re, s - 1, w) + Butterflies(ro, s - 1, w);
      forall q | 0 <= q < h
        ensures c[q] == Eval(Evens(x), Power(Mul(w[s], w[s]), q))
        ensures c[q + h] == Eval(Odds(x), Power(Mul(w[s], w[s]), q))
      {
        SquareOfRoot(w, s, q);
        FftIsDft(Evens(x), s - 1, w, q);
        FftIsDft(Odds(x), s - 1, w, q);
      }
      SplitBlocks(re, ro, s, w);
      hide Butterfly;
      ButterflyEvaluates(x, c, h, w[s], p);
    }
  }

  lemma SplitBlocks(c: seq<Cx>, d: seq<Cx>, s: nat, w: seq<Cx>)
    requires s > 0 && |c| == |d| == Two(s - 1) && s < |w|
    ensures |c + d| == Two(s)
    ensures Butterflies(c + d, s, w) ==
            Merge(Butterflies(c, s - 1, w) + Butterflies(d, s - 1, w), Two(s - 1), w[s])
  {
    assert (c + d)[..|c|] == c && (c + d)[|c|..] == d;
    hide Merge;
  }

  /** At the first stage there is only one power, whatever the root. */
  lemma SquareOfRoot(w: seq<Cx>, s: nat, q: nat)
    requires Roots(w) && 1 <= s < |w| && q < Two(s - 1)
    ensures Power(w[s - 1], q) == Power(Mul(w[s], w[s]), q)
  {
    hide Mul;
  }
}
