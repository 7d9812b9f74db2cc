/** The transform of fft.c on its array: point p is data[2p+1] + i data[2p+2]. The sines are parameters. */
module Fft {
  import opened NumberTheory
  import opened BitReversal
  import opened Complex
  import opened FourierTransform

  // ----- The points in the array -----

  function PointAt(d: seq<real>, p: nat): Cx
    requires 2 * p + 2 < |d|
  {
    Cx(d[2 * p + 1], d[2 * p + 2])
  }

  function Points(d: seq<real>, nn: nat): (c: seq<Cx>)
    requires 2 * nn < |d|
    ensures |c| == nn
  {
    seq(nn, p requires 0 <= p < nn => PointAt(d, p))
  }

  /** data[0], and what follows the points, stay as they are. */
  ghost predicate SameRest(d: seq<real>, e: seq<real>, nn: nat)
    requires 2 * nn < |d|
  {
    |e| == |d| && e[0] == d[0] && e[2 * nn + 1..] == d[2 * nn + 1..]
  }

  method SetPoints(data: array<real>, ghost nn: nat, i: nat, z: Cx, j: nat, y: Cx)
    requires 2 * nn < data.Length && i % 2 == 1 && j % 2 == 1 && i < 2 * nn && j < 2 * nn
    modifies data
    ensures Points(data[..], nn) == Points(old(data[..]), nn)[i / 2 := z][j / 2 := y]
    ensures SameRest(old(data[..]), data[..], nn)
  {
    data[i] := z.re;
    data[i + 1] := z.im;
    data[j] := y.re;
    data[j + 1] := y.im;
    assert Points(data[..], nn) == Points(old(data[..]), nn)[i / 2 := z][j / 2 := y];
  }

  // ----- The bit-reversal loop -----

  /** The points after the passes for 0..p-1. */
  function PartlyReversed(k: nat, x: seq<Cx>, p: nat): (r: seq<Cx>)
    requires |x| == Two(k)
    ensures |r| == |x|
  {
    seq(Two(k), q requires 0 <= q < Two(k) => if q < p || Rev(k, q) < p then x[Rev(k, q)] else x[q])
  }

  lemma ReversalPass(k: nat, x: seq<Cx>, p: nat)
    requires |x| == Two(k) && p < Two(k)
    ensures var r, j := PartlyReversed(k, x, p), Rev(k, p);
      PartlyReversed(k, x, p + 1) == if j > p then r[p := r[j]][j := r[p]] else r
  {
    var r, j := PartlyReversed(k, x, p), Rev(k, p);
    var e := if j > p then r[p := r[j]][j := r[p]] else r;
    forall q | 0 <= q < Two(k) ensures PartlyReversed(k, x, p + 1)[q] == e[q] {
      RevTwice(k, q);
      RevTwice(k, p);
      hide Rev;
    }
  }

  method BitReverse(data: array<real>, nn: nat, ghost k: nat)
    requires nn == Two(k) && 2 * nn < data.Length
    modifies data
    ensures Points(data[..], nn) == Reversed(k, Points(old(data[..]), nn))
    ensures SameRest(old(data[..]), data[..], nn)
  {
    hide PointAt, PartlyReversed;
    ghost var x := Points(data[..], nn);
    var n := 2 * nn;
    var j := 1;
    var i := 1;
    assert PartlyReversed(k, x, 0) == x by { PartlyReversedAtFirst(k, x); }
    RevOfZero(k);
    while i < n
      invariant i % 2 == 1 && 1 <= i <= n + 1
      invariant i < n ==> j == 2 * Rev(k, i / 2) + 1
      invariant Points(data[..], nn) == PartlyReversed(k, x, i / 2)
      invariant SameRest(old(data[..]), data[..], nn)
    {
      ReversalPass(k, x, i / 2);
      if j > i {
        var z, y := Cx(data[i], data[i + 1]), Cx(data[j], data[j + 1]);
        PointIs(data[..], nn, i);
        PointIs(data[..], nn, j);
        SetPoints(data, nn, i, y, j, z);
      }
      j := NextReversed(k, nn, i / 2, j);
      i := i + 2;
    }
    AllReversed(k, x);
  }

  lemma PointIs(d: seq<real>, nn: nat, i: nat)
    requires 2 * nn < |d| && i % 2 == 1 && i < 2 * nn
    ensures Points(d, nn)[i / 2] == Cx(d[i], d[i + 1])
  {
    assert 2 * (i / 2) + 1 == i;
  }

  lemma PartlyReversedAtFirst(k: nat, x: seq<Cx>)
    requires |x| == Two(k)
    ensures PartlyReversed(k, x, 0) == x
  {
  }

  lemma {:induction false} RevOfZero(k: nat)
    ensures Rev(k, 0) == 0
  {
    if k > 0 {
      RevOfZero(k - 1);
    }
  }

  lemma AllReversed(k: nat, x: seq<Cx>)
    requires |x| == Two(k)
    ensures PartlyReversed(k, x, Two(k)) == Reversed(k, x)
  {
  }

  // ----- One stage of butterflies -----

  /** The place of a point in its block of size 2h, and the twiddle factor it meets there. */
  function Place(h: nat, x: nat): nat
    requires h > 0
  {
    x % (2 * h)
  }

  function Twiddle(h: nat, x: nat): nat
    requires h > 0
  {
    x % h
  }

  /** Both for a point at the front or the back of its block. */
  lemma Places(h: nat, x: nat)
    requires h > 0
    ensures Twiddle(h, x) < h && Twiddle(h, x) <= x
    ensures Place(h, x) == Twiddle(h, x) || (Place(h, x) == Twiddle(h, x) + h && x >= h)
  {
    var r := x % (2 * h);
    var b := x / (2 * h);
    assert x == (2 * h) * b + r;
    Associate(h, 2, b);
    DropMultiple(h, 2 * b, r);
    if r < h { Remainder(r, h, 0, r); } else { Remainder(r, h, 1, r - h); }
    if x < h { Remainder(x, h, 0, x); Remainder(x, 2 * h, 0, x); }
  }

  lemma PairInside(length: nat, h: nat, p: nat)
    requires h > 0 && length % (2 * h) == 0 && p < length && Place(h, p) < h
    ensures p + h < length
  {
    var l := 2 * h;
    assert length == l * (length / l) && p == l * (p / l) + p % l;
    if p / l >= length / l {
      LessTimes(l, length / l, p / l);
    } else {
      LessTimes(l, p / l + 1, length / l);
    }
    assert l * (p / l + 1) == l * (p / l) + l;
  }

  /** What the stage for blocks of size 2h makes of point p. */
  function StagePoint(c: seq<Cx>, h: nat, w: Cx, p: nat): Cx
    requires h > 0 && |c| % (2 * h) == 0 && p < |c|
  {
    Places(h, p);
    var r := Place(h, p);
    if r < h then
      PairInside(|c|, h, p);
      Add(c[p], Mul(Power(w, r), c[p + h]))
    else Sub(c[p - h], Mul(Power(w, r - h), c[p]))
  }

  function Stage(c: seq<Cx>, h: nat, w: Cx): (r: seq<Cx>)
    requires h > 0 && |c| % (2 * h) == 0
    ensures |r| == |c|
  {
    seq(|c|, p requires 0 <= p < |c| => StagePoint(c, h, w, p))
  }

  /** The loops have passed point x when they are at twiddle q and point p. */
  predicate Passed(h: nat, q: nat, p: nat, x: nat)
    requires h > 0
  {
    Twiddle(h, x) < q || (Twiddle(h, x) == q && x < p)
  }

  function PartlyStaged(c: seq<Cx>, h: nat, w: Cx, q: nat, p: nat): (r: seq<Cx>)
    requires h > 0 && |c| % (2 * h) == 0
    ensures |r| == |c|
  {
    seq(|c|, x requires 0 <= x < |c| => if Passed(h, q, p, x) then StagePoint(c, h, w, x) else c[x])
  }

  /** Between p and the next point of the same twiddle, only p + h has the same remainder. */
  lemma NextPair(h: nat, p: nat, x: nat)
    requires h > 0 && Place(h, p) < h && p <= x < p + 2 * h && Twiddle(h, x) == Twiddle(h, p)
    ensures x == p || x == p + h
  {
    var d, s := x - p, p % h + (x - p);
    assert x == h * (p / h) + s;
    DropMultiple(h, p / h, s);
    if s < h {
      Remainder(s, h, 0, s);
    } else if s < 2 * h {
      Remainder(s, h, 1, s - h);
    } else {
      Remainder(s, h, 2, s - 2 * h);
    }
  }

  lemma ShiftByHalf(h: nat, p: nat)
    requires h > 0 && Place(h, p) < h
    ensures Twiddle(h, p + h) == Twiddle(h, p) == Place(h, p) && Place(h, p + h) == Place(h, p) + h
  {
    Places(h, p);
    DropMultiple(h, 1, p);
    assert p + h == (2 * h) * (p / (2 * h)) + (p % (2 * h) + h);
    Remainder(p + h, 2 * h, p / (2 * h), p % (2 * h) + h);
  }

  lemma PassedPair(h: nat, q: nat, p: nat, x: nat)
    requires h > 0 && q < h && Place(h, p) == q
    ensures Passed(h, q, p + 2 * h, x) == (Passed(h, q, p, x) || x == p || x == p + h)
    ensures !Passed(h, q, p, p) && !Passed(h, q, p, p + h)
  {
    ShiftByHalf(h, p);
    if Twiddle(h, x) == q && p <= x < p + 2 * h {
      NextPair(h, p, x);
    }
    hide Place, Twiddle;
  }

  lemma ButterflyPass(c: seq<Cx>, h: nat, w: Cx, q: nat, p: nat)
    requires h > 0 && |c| % (2 * h) == 0 && p < |c| && q < h && Place(h, p) == q
    ensures p + h < |c|
    ensures var r, t := PartlyStaged(c, h, w, q, p), Power(w, q);
      PartlyStaged(c, h, w, q, p + 2 * h) ==
      r[p := Add(r[p], Mul(t, r[p + h]))][p + h := Sub(r[p], Mul(t, r[p + h]))]
  {
    hide Add, Sub, Mul, Power, Place, Twiddle, Passed;
    PairInside(|c|, h, p);
    ShiftByHalf(h, p);
    var r, t := PartlyStaged(c, h, w, q, p), Power(w, q);
    var e := r[p := Add(r[p], Mul(t, r[p + h]))][p + h := Sub(r[p], Mul(t, r[p + h]))];
    PassedPair(h, q, p, p);
    assert r[p] == c[p] && r[p + h] == c[p + h];
    assert e[p] == StagePoint(c, h, w, p) && e[p + h] == StagePoint(c, h, w, p + h);
    hide StagePoint;
    forall x | 0 <= x < |c| ensures PartlyStaged(c, h, w, q, p + 2 * h)[x] == e[x] {
      PassedPair(h, q, p, x);
    }
  }

  lemma PassedTwiddle(h: nat, q: nat, p: nat, x: nat)
    requires h > 0 && x < p
    ensures Passed(h, q, p, x) == Passed(h, q + 1, q + 1, x)
    ensures !Passed(h, 0, 0, x) && Passed(h, h, h, x)
  {
    Places(h, x);
    hide Place, Twiddle;
  }

  lemma TwiddlePass(c: seq<Cx>, h: nat, w: Cx, q: nat, p: nat)
    requires h > 0 && |c| % (2 * h) == 0 && q < h && p >= |c|
    ensures PartlyStaged(c, h, w, q, p) == PartlyStaged(c, h, w, q + 1, q + 1)
  {
    hide StagePoint, Passed;
    forall x | 0 <= x < |c| ensures Passed(h, q, p, x) == Passed(h, q + 1, q + 1, x) {
      PassedTwiddle(h, q, p, x);
    }
  }

  lemma StageAtFirst(c: seq<Cx>, h: nat, w: Cx)
    requires h > 0 && |c| % (2 * h) == 0
    ensures PartlyStaged(c, h, w, 0, 0) == c
  {
    hide StagePoint, Passed;
    forall x | 0 <= x < |c| ensures !Passed(h, 0, 0, x) {
      PassedTwiddle(h, 0, x + 1, x);
    }
  }

  lemma StageAtEnd(c: seq<Cx>, h: nat, w: Cx)
    requires h > 0 && |c| % (2 * h) == 0
    ensures PartlyStaged(c, h, w, h, h) == Stage(c, h, w)
  {
    hide StagePoint, Passed;
    forall x | 0 <= x < |c| ensures Passed(h, h, h, x) {
      PassedTwiddle(h, 0, x + 1, x);
    }
  }

  /** The four assignments to data. */
  method ButterflyAt(data: array<real>, ghost nn: nat, i: nat, j: nat, w: Cx)
    requires 2 * nn < data.Length && i % 2 == 1 && j % 2 == 1 && i < 2 * nn && j < 2 * nn && i != j
    modifies data
    ensures var c := Points(old(data[..]), nn);
      Points(data[..], nn) == c[i / 2 := Add(c[i / 2], Mul(w, c[j / 2]))][j / 2 := Sub(c[i / 2], Mul(w, c[j / 2]))]
    ensures SameRest(old(data[..]), data[..], nn)
  {
    PointIs(data[..], nn, i);
    PointIs(data[..], nn, j);
    hide Points;
    ghost var y := Cx(data[j], data[j + 1]);
    var tempr := w.re * data[j] - w.im * data[j + 1];
    var tempi := w.re * data[j + 1] + w.im * data[j];
    assert Mul(w, y) == Cx(tempr, tempi);
    hide Mul;
    SetPoints(data, nn, i, Cx(data[i] + tempr, data[i + 1] + tempi), j, Cx(data[i] - tempr, data[i + 1] - tempi));
  }

  lemma NextTwiddle(w: Cx, wp: Cx, q: nat)
    requires w == Power(Add(ONE, wp), q)
    ensures Power(Add(ONE, wp), q + 1) == Cx(w.re * wp.re - w.im * wp.im + w.re, w.im * wp.re + w.re * wp.im + w.im)
  {
    assert Power(Add(ONE, wp), q + 1) == Mul(Add(ONE, wp), w);
    hide Power;
  }

  lemma NextPointOfTwiddle(h: nat, p: nat)
    requires h > 0
    ensures Place(h, p + 2 * h) == Place(h, p)
  {
    DropMultiple(2 * h, 1, p);
  }

  lemma FirstPointOfTwiddle(h: nat, q: nat)
    requires q < h
    ensures Place(h, q) == q
  {
    Remainder(q, 2 * h, 0, q);
  }

  /** The innermost loop: the butterflies with one twiddle factor. */
  method TwiddleLoop(data: array<real>, nn: nat, m: nat, mmax: nat, w: Cx, ghost h: nat, ghost c: seq<Cx>, ghost root: Cx)
    requires 2 * nn < data.Length && h > 0 && mmax == 2 * h && |c| == nn && nn % (2 * h) == 0
    requires m % 2 == 1 && m < mmax && w == Power(root, m / 2)
    requires Points(data[..], nn) == PartlyStaged(c, h, root, m / 2, m / 2)
    modifies data
    ensures Points(data[..], nn) == PartlyStaged(c, h, root, m / 2 + 1, m / 2 + 1)
    ensures SameRest(old(data[..]), data[..], nn)
  {
    hide Points, PartlyStaged, Add, Sub, Mul, Power, SameRest, Place;
    var n, istep := 2 * nn, 2 * mmax;
    ghost var q := m / 2;
    ghost var p := q;
    var i := m;
    FirstPointOfTwiddle(h, q);
    SameRestAtFirst(data[..], nn);
    while i <= n
      invariant i == 2 * p + 1 && p >= q && Place(h, p) == q
      invariant Points(data[..], nn) == PartlyStaged(c, h, root, q, p)
      invariant SameRest(old(data[..]), data[..], nn)
    {
      ghost var d := data[..];
      ButterflyPass(c, h, root, q, p);
      NextPointOfTwiddle(h, p);
      var j := i + mmax;
      assert i / 2 == p && j / 2 == p + h && j % 2 == 1;
      ButterflyAt(data, nn, i, j, w);
      SameRestTransitive(old(data[..]), d, data[..], nn);
      i := i + istep;
      p := p + 2 * h;
    }
    TwiddlePass(c, h, root, q, p);
  }

  lemma SameRestAtFirst(d: seq<real>, nn: nat)
    requires 2 * nn < |d|
    ensures SameRest(d, d, nn)
  {
  }

  lemma SameRestTransitive(d: seq<real>, e: seq<real>, f: seq<real>, nn: nat)
    requires 2 * nn < |d| && SameRest(d, e, nn) && SameRest(e, f, nn)
    ensures SameRest(d, f, nn)
  {
  }

  /** The two inner loops: every butterfly with blocks of 2h points, for the root 1 + wp. */
  method StageLoops(data: array<real>, nn: nat, mmax: nat, wp: Cx, ghost h: nat)
    requires 2 * nn < data.Length && h > 0 && mmax == 2 * h && nn % (2 * h) == 0
    modifies data
    ensures Points(data[..], nn) == Stage(Points(old(data[..]), nn), h, Add(ONE, wp))
    ensures SameRest(old(data[..]), data[..], nn)
  {
    hide Points, PartlyStaged, Add, Sub, Mul, Power, Stage, SameRest;
    ghost var c, root := Points(data[..], nn), Add(ONE, wp);
    var w := Cx(1.0, 0.0);
    var m := 1;
    StageAtFirst(c, h, root);
    PowerZero(root);
    SameRestAtFirst(data[..], nn);
    while m < mmax
      invariant m % 2 == 1 && 1 <= m <= mmax + 1
      invariant w == Power(root, m / 2)
      invariant Points(data[..], nn) == PartlyStaged(c, h, root, m / 2, m / 2)
      invariant SameRest(old(data[..]), data[..], nn)
    {
      ghost var d := data[..];
      TwiddleLoop(data, nn, m, mmax, w, h, c, root);
      SameRestTransitive(old(data[..]), d, data[..], nn);
      NextTwiddle(w, wp, m / 2);
      w := Cx(w.re * wp.re - w.im * wp.im + w.re, w.im * wp.re + w.re * wp.im + w.im);
      m := m + 2;
    }
    StageAtEnd(c, h, root);
  }

  lemma PowerZero(z: Cx)
    ensures Power(z, 0) == ONE
  {
  }

  // ----- All stages -----

  /** After the stage for blocks of size Two(s), every block has been transformed. */
  ghost predicate BlocksDone(c: seq<Cx>, d: seq<Cx>, k: nat, s: nat, w: seq<Cx>)
    requires |c| == |d| == Two(k) && s <= k < |w|
  {
    forall b: nat :: b < Two(k - s) ==> BlockDone(c, d, k, s, w, b)
  }

  ghost predicate BlockDone(c: seq<Cx>, d: seq<Cx>, k: nat, s: nat, w: seq<Cx>, b: nat)
    requires |c| == |d| == Two(k) && s <= k < |w| && b < Two(k - s)
  {
    BlockFits(k, s, b);
    d[b * Two(s)..b * Two(s) + Two(s)] == Butterflies(c[b * Two(s)..b * Two(s) + Two(s)], s, w)
  }

  lemma BlockFits(k: nat, s: nat, b: nat)
    requires s <= k && b < Two(k - s)
    ensures 0 <= b * Two(s) && b * Two(s) + Two(s) <= Two(k)
  {
    TwoOfSum(k - s, s);
    hide Two;
    LessTimes(Two(s), b + 1, Two(k - s));
    LessTimes(Two(s), 0, b);
    assert Two(s) * (b + 1) == b * Two(s) + Two(s);
  }

  lemma BlocksDivide(k: nat, s: nat)
    requires s <= k
    ensures Two(k) % Two(s) == 0
  {
    TwoOfSum(s, k - s);
    hide Two;
    Remainder(Two(k), Two(s), Two(k - s), 0);
  }

  lemma BlocksAtFirst(c: seq<Cx>, k: nat, w: seq<Cx>, s: nat)
    requires |c| == Two(k) && k < |w| && s == 0
    ensures BlocksDone(c, c, k, s, w)
  {
    forall b: nat | b < Two(k - s) ensures BlockDone(c, c, k, s, w, b) {
      BlockFits(k, s, b);
    }
  }

  lemma PlaceInBlock(h: nat, base: nat, r: nat)
    requires h > 0 && base % (2 * h) == 0 && r < 2 * h
    ensures Place(h, base + r) == r
  {
    assert base + r == (2 * h) * (base / (2 * h)) + r;
    Remainder(base + r, 2 * h, base / (2 * h), r);
  }

  /** A stage merges the halves of every block. */
  lemma StageMerges(d: seq<Cx>, h: nat, w: Cx, base: nat)
    requires h > 0 && |d| % (2 * h) == 0 && base % (2 * h) == 0 && base + 2 * h <= |d|
    ensures Stage(d, h, w)[base..base + 2 * h] == Merge(d[base..base + 2 * h], h, w)
  {
    hide Add, Sub, Mul, Power, Place;
    var block, end := d[base..base + 2 * h], base + 2 * h;
    forall r: nat | r < 2 * h ensures block[r] == d[base + r] && StagePoint(d, h, w, base + r) == Butterfly(block, h, w, r) {
      PlaceInBlock(h, base, r);
    }
    hide StagePoint, Butterfly;
    assert Stage(d, h, w)[base..end] == Merge(block, h, w);
  }

  lemma BlockHalves(k: nat, s: nat, b: nat)
    requires 0 < s <= k && b < Two(k - s)
    ensures 2 * b + 1 < Two(k - s + 1) && Two(s) == 2 * Two(s - 1)
    ensures b * Two(s) == 2 * b * Two(s - 1) && (2 * b + 1) * Two(s - 1) == b * Two(s) + Two(s - 1)
    ensures b * Two(s) % Two(s) == 0
  {
    Doubled(s);
    Doubled(k - s + 1);
    var h := Two(s - 1);
    hide Two;
    assert b * (2 * h) == 2 * b * h;
    assert (2 * b + 1) * h == 2 * b * h + h;
    DropMultiple(2 * h, b, 0);
  }

  lemma BlockMerged(c: seq<Cx>, d: seq<Cx>, k: nat, s: nat, w: seq<Cx>, b: nat)
    requires |c| == |d| == Two(k) && 0 < s <= k < |w| && Two(k) % (2 * Two(s - 1)) == 0 && b < Two(k - s)
    requires 2 * b + 1 < Two(k - s + 1) && BlockDone(c, d, k, s - 1, w, 2 * b) && BlockDone(c, d, k, s - 1, w, 2 * b + 1)
    ensures BlockDone(c, Stage(d, Two(s - 1), w[s]), k, s, w, b)
  {
    hide Two, Stage, Merge, Butterflies;
    BlockFits(k, s, b);
    BlockHalves(k, s, b);
    SliceMerged(c, d, b * Two(s), s, w);
  }

  lemma SliceMerged(c: seq<Cx>, d: seq<Cx>, base: nat, s: nat, w: seq<Cx>)
    requires |c| == |d| && 0 < s < |w| && |d| % (2 * Two(s - 1)) == 0
    requires base % (2 * Two(s - 1)) == 0 && base + 2 * Two(s - 1) <= |d| && Two(s) == 2 * Two(s - 1)
    requires var h := Two(s - 1);
      && d[base..base + h] == Butterflies(c[base..base + h], s - 1, w)
      && d[base + h..base + h + h] == Butterflies(c[base + h..base + h + h], s - 1, w)
    ensures Stage(d, Two(s - 1), w[s])[base..base + Two(s)] == Butterflies(c[base..base + Two(s)], s, w)
  {
    hide Two, Stage, Merge, Butterflies;
    var h := Two(s - 1);
    StageMerges(d, h, w[s], base);
    SplitSlice(c, base, h);
    SplitSlice(d, base, h);
    SplitBlocks(c[base..base + h], c[base + h..base + h + h], s, w);
  }

  lemma SplitSlice<T>(c: seq<T>, base: nat, h: nat)
    requires base + 2 * h <= |c|
    ensures c[base..base + 2 * h] == c[base..base + h] + c[base + h..base + h + h]
  {
  }

  lemma StageKeepsBlocks(c: seq<Cx>, d: seq<Cx>, k: nat, s: nat, w: seq<Cx>)
    requires |c| == |d| == Two(k) && 0 < s <= k < |w| && Two(k) % (2 * Two(s - 1)) == 0
    requires BlocksDone(c, d, k, s - 1, w)
    ensures BlocksDone(c, Stage(d, Two(s - 1), w[s]), k, s, w)
  {
    var e := Stage(d, Two(s - 1), w[s]);
    forall b: nat | b < Two(k - s) ensures BlockDone(c, e, k, s, w, b) {
      BlockHalves(k, s, b);
      hide Two, BlockDone, Stage;
      BlockMerged(c, d, k, s, w, b);
    }
  }

  lemma OneBlock(c: seq<Cx>, d: seq<Cx>, k: nat, w: seq<Cx>)
    requires |c| == |d| == Two(k) && k < |w| && BlocksDone(c, d, k, k, w)
    ensures d == Butterflies(c, k, w)
  {
    hide Butterflies;
    assert BlockDone(c, d, k, k, w, 0);
    hide Two;
    assert 0 * Two(k) == 0;
    assert c[0..|c|] == c && d[0..|d|] == d;
  }

  lemma {:induction false} TwoGrows(i: nat, j: nat)
    requires i <= j
    ensures Two(i) <= Two(j) && (i < j ==> Two(i) < Two(j))
  {
    if i < j {
      TwoGrows(i, j - 1);
    }
  }

  /** The roots 1 + wp for the parameters wpr + i wpi of the stages. */
  function RootsOf(wps: seq<Cx>): (w: seq<Cx>)
    ensures |w| == |wps| && forall s :: 0 <= s < |w| ==> w[s] == Add(ONE, wps[s])
  {
    seq(|wps|, s requires 0 <= s < |wps| => Add(ONE, wps[s]))
  }

  /** The loop over mmax. wps[s] is the pair wpr, wpi that the source computes for mmax == Two(s). */
  method DanielsonLanczos(data: array<real>, nn: nat, wps: seq<Cx>, ghost k: nat)
    requires nn == Two(k) && 2 * nn < data.Length && k < |wps|
    modifies data
    ensures Points(data[..], nn) == Butterflies(Points(old(data[..]), nn), k, RootsOf(wps))
    ensures SameRest(old(data[..]), data[..], nn)
  {
    hide Points, SameRest, Two, Stage, BlocksDone, Add, Butterflies;
    ghost var c, w := Points(data[..], nn), RootsOf(wps);
    var n := 2 * nn;
    var mmax := 2;
    var s := 1;
    Doubled(k + 1);
    TwoOfOne();
    BlocksAtFirst(c, k, w, 0);
    SameRestAtFirst(data[..], nn);
    while n > mmax
      invariant 1 <= s <= k + 1 && mmax == Two(s)
      invariant BlocksDone(c, Points(data[..], nn), k, s - 1, w)
      invariant SameRest(old(data[..]), data[..], nn)
      decreases k + 1 - s
    {
      if s == k + 1 { assert false; }
      ghost var d := data[..];
      Doubled(s);
      Doubled(s + 1);
      BlocksDivide(k, s);
      StageKeepsBlocks(c, Points(d, nn), k, s, w);
      StageLoops(data, nn, mmax, wps[s], Two(s - 1));
      SameRestTransitive(old(data[..]), d, data[..], nn);
      mmax := 2 * mmax;
      s := s + 1;
    }
    if s < k + 1 {
      TwoGrows(s, k + 1);
      assert false;
    }
    OneBlock(c, Points(data[..], nn), k, w);
  }

  lemma TwoOfOne()
    ensures Two(1) == 2 && Two(0) == 1
  {
  }

  /** In numbers: roots c + i s with c = cos and s = sin of half the angle of the one before, from -1 on. */
  ghost predicate RootsInNumbers(w: seq<Cx>) {
    && (|w| > 1 ==> w[1].re == -1.0 && w[1].im == 0.0)
    && forall s :: 1 <= s < |w| - 1 ==>
         w[s + 1].re * w[s + 1].re - w[s + 1].im * w[s + 1].im == w[s].re && 2.0 * w[s + 1].re * w[s + 1].im == w[s].im
  }

  lemma RootsAreNumbers(w: seq<Cx>)
    ensures Roots(w) <==> RootsInNumbers(w)
  {
  }

  /** Component p of the transform of x for the root z, in numbers. */
  ghost predicate IsComponent(x: seq<Cx>, z: Cx, p: nat, n: nat, re: real, im: real)
    requires n <= |x|
  {
    && re == SumRe(x, PowerRe(z.re, z.im, p), PowerIm(z.re, z.im, p), n)
    && im == SumIm(x, PowerRe(z.re, z.im, p), PowerIm(z.re, z.im, p), n)
  }

  lemma ComponentInNumbers(x: seq<Cx>, z: Cx, p: nat, n: nat)
    requires n <= |x|
    ensures var y := PowerSum(x, Power(z, p), n); IsComponent(x, z, p, n, y.re, y.im)
  {
    PowerInNumbers(z.re, z.im, p);
    SumInNumbers(x, PowerRe(z.re, z.im, p), PowerIm(z.re, z.im, p), n);
    hide PowerSum, Power, PowerRe, PowerIm, SumRe, SumIm;
  }

  /** The whole of start: bit reversal, then butterflies. With exact roots of unity each point p becomes the value of
      the polynomial with the old points as coefficients at the p-th power of the last root: the discrete Fourier
      transform. */
  method Transform(data: array<real>, nn: nat, wps: seq<Cx>, ghost k: nat)
    requires nn == Two(k) && 2 * nn < data.Length && k < |wps|
    modifies data
    ensures var x, w := Points(old(data[..]), nn), RootsOf(wps);
      && Points(data[..], nn) == Butterflies(Reversed(k, x), k, w)
      && (Roots(w) ==> forall p :: 0 <= p < nn ==> Points(data[..], nn)[p] == PowerSum(x, Power(w[k], p), nn))
    ensures var x, w := Points(old(data[..]), nn), RootsOf(wps);
      RootsInNumbers(w) ==> forall p :: 0 <= p < nn ==> IsComponent(x, w[k], p, nn, data[2 * p + 1], data[2 * p + 2])
    ensures SameRest(old(data[..]), data[..], nn)
  {
    hide Points, SameRest, Two, RootsOf, Butterflies, PowerSum, Power, Roots, Reversed, RootsInNumbers, IsComponent;
    ghost var x, w := Points(data[..], nn), RootsOf(wps);
    BitReverse(data, nn, k);
    ghost var d := data[..];
    DanielsonLanczos(data, nn, wps, k);
    SameRestTransitive(old(data[..]), d, data[..], nn);
    if Roots(w) {
      forall p | 0 <= p < nn ensures Points(data[..], nn)[p] == PowerSum(x, Power(w[k], p), nn) {
        FftIsDft(x, k, w, p);
        EvalIsSum(x, Power(w[k], p));
      }
    }
    RootsAreNumbers(w);
    ghost var e := data[..];
    forall p | 0 <= p < nn && Roots(w) ensures IsComponent(x, w[k], p, nn, e[2 * p + 1], e[2 * p + 2]) {
      ComponentInNumbers(x, w[k], p, nn);
      PointsAt(e, nn, p);
    }
  }

  lemma PointsAt(d: seq<real>, nn: nat, p: nat)
    requires 2 * nn < |d| && p < nn
    ensures Points(d, nn)[p].re == d[2 * p + 1] && Points(d, nn)[p].im == d[2 * p + 2]
  {
  }
}
