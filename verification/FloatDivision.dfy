/** fpdiv64: division of IEEE 754 binary64 words by Newton's iteration on the significand. Words are naturals below
    2^64; the arithmetic on doubles is exact. */
module FloatDivision {
  import opened NumberTheory
  import opened NewtonDivision

  const P11: int := 0x800
  const P52: int := 0x10_0000_0000_0000
  const P63: int := 0x8000_0000_0000_0000
  const P64: int := 0x1_0000_0000_0000_0000

  type Word = x: int | 0 <= x < P64

  // ----- The fields of a word (section 3.4 of IEEE 754-2008) -----

  function Sign(w: Word): int { w / P63 }
  function Exponent(w: Word): int { w / P52 % P11 }
  function Fraction(w: Word): int { w % P52 }

  /** _GET_SLICE_: left by 63 - h, then right by 63 - h + l; up and down are the two powers. */
  function GetSlice(w: Word, up: int, down: int): int
    requires down > 0
  {
    w * up % P64 / down
  }

  lemma Fields(w: Word)
    ensures w == Sign(w) * P63 + Exponent(w) * P52 + Fraction(w)
    ensures 0 <= Sign(w) <= 1 && 0 <= Exponent(w) < P11 && 0 <= Fraction(w) < P52
  {
    var v := w / P52;
    assert w == v * P52 + Fraction(w);
    assert v == v / P11 * P11 + Exponent(w);
    Remainder(w, P63, v / P11, Exponent(w) * P52 + Fraction(w));
  }

  lemma SlicesAreFields(w: Word)
    ensures GetSlice(w, 1, P63) == Sign(w) && GetSlice(w, 2, 2 * P52) == Exponent(w)
    ensures GetSlice(w, 2, 2) == Exponent(w) * P52 + Fraction(w) == w % P63
  {
    Fields(w);
    var s, e, m := Sign(w), Exponent(w), Fraction(w);
    hide Sign, Exponent, Fraction;
    Remainder(w, P64, 0, w);
    Remainder(w, P63, s, e * P52 + m);
    Remainder(w * 2, P64, s, 2 * (e * P52 + m));
    Remainder(2 * (e * P52 + m), 2 * P52, e, 2 * m);
    Remainder(2 * (e * P52 + m), 2, e * P52 + m, 0);
  }

  lemma FieldsOf(w: Word, s: int, e: int, m: int)
    requires w == s * P63 + e * P52 + m && 0 <= s <= 1 && 0 <= e < P11 && 0 <= m < P52
    ensures Sign(w) == s && Exponent(w) == e && Fraction(w) == m
  {
    Remainder(w, P63, s, e * P52 + m);
    Remainder(w, P52, s * P11 + e, m);
    Remainder(s * P11 + e, P11, s, e);
  }

  /** _SET_SLICE_ of bits 62 to 52, and of bit 63. */
  function SetExponent(w: Word, e: int): (r: Word)
    ensures Sign(r) == Sign(w) && Exponent(r) == e % P11 && Fraction(r) == Fraction(w)
  {
    Fields(w);
    var r: Word := Sign(w) * P63 + e % P11 * P52 + Fraction(w);
    FieldsOf(r, Sign(w), e % P11, Fraction(w));
    r
  }

  function SetSign(w: Word, s: int): (r: Word)
    ensures Sign(r) == s % 2 && Exponent(r) == Exponent(w) && Fraction(r) == Fraction(w)
  {
    Fields(w);
    var r: Word := s % 2 * P63 + Exponent(w) * P52 + Fraction(w);
    FieldsOf(r, s % 2, Exponent(w), Fraction(w));
    r
  }

  // ----- Values -----

  /** Two to the power of any integer. */
  function Scale(k: int): (s: real)
    ensures s > 0.0
  {
    if k >= 0 then Two(k) as real else 1.0 / Two(-k) as real
  }

  lemma ScaleNext(k: int)
    ensures Scale(k + 1) == 2.0 * Scale(k)
  {
    if k >= 0 {
      Doubled(k + 1);
    } else {
      Doubled(-k);
      hide Two;
      var p := Two(-k - 1) as real;
      assert 2.0 * (1.0 / (2.0 * p)) == 1.0 / p;
      if k == -1 {
        TwoAtZero();
      }
    }
  }

  lemma TwoAtZero()
    ensures Two(0) == 1
  {
  }

  lemma ScaleOfZero()
    ensures Scale(0) == 1.0
  {
    TwoAtZero();
  }

  lemma {:induction false} ScaleAdd(j: int, k: int)
    ensures Scale(j + k) == Scale(j) * Scale(k)
    decreases if k < 0 then -k else k
  {
    hide Scale;
    if k == 0 {
      ScaleOfZero();
    } else if k > 0 {
      ScaleAdd(j, k - 1);
      ScaleNext(j + k - 1);
      ScaleNext(k - 1);
      Rearrange(Scale(j), Scale(k - 1));
    } else {
      ScaleAdd(j, k + 1);
      ScaleNext(j + k);
      ScaleNext(k);
      Rearrange(Scale(j), Scale(k));
    }
  }

  lemma Rearrange(x: real, y: real)
    ensures x * (2.0 * y) == 2.0 * (x * y)
  {
  }

  predicate IsNormal(w: Word) {
    1 <= Exponent(w) <= 2046
  }

  function Significand(w: Word): (m: real)
    ensures 1.0 <= m < 2.0
  {
    Fields(w);
    1.0 + Fraction(w) as real / P52 as real
  }

  /** The absolute value of a finite word; infinities and NaNs are given the value 0. */
  function Magnitude(w: Word): real {
    if IsNormal(w) then Times(Scale(Exponent(w) - 1023), Significand(w))
    else if Exponent(w) == 0 then Times(Scale(-1022), Fraction(w) as real / P52 as real)
    else 0.0
  }

  function Value(w: Word): real {
    if Sign(w) == 1 then -Magnitude(w) else Magnitude(w)
  }

  lemma ScaleIs(e: int)
    ensures e >= 1023 ==> Scale(e - 1023) == Two(e - 1023) as real
    ensures e < 1023 ==> Scale(e - 1023) == 1.0 / Two(1023 - e) as real
  {
    hide Two;
  }

  lemma SignedTimes(neg: bool, x: real, y: real)
    ensures (if neg then -1.0 else 1.0) * (x * y) == if neg then -Times(x, y) else Times(x, y)
  {
  }

  lemma MagnitudeOfParts(w: Word, e: int, f: int)
    requires 1 <= e <= 2046 && Exponent(w) == e && Fraction(w) == f
    ensures Magnitude(w) == Times(Scale(e - 1023), 1.0 + f as real / 4503599627370496.0)
  {
    hide Times, Scale, Exponent, Fraction;
  }

  /** Section 3.4 of IEEE 754-2008, in numbers: a sign, 11 bits of an exponent biased by 1023, and 52 of fraction. */
  lemma ValueOfParts(w: Word, s: int, e: int, f: int)
    requires 0 <= s <= 1 && 1 <= e <= 2046 && 0 <= f < 4503599627370496
    requires w == s * 9223372036854775808 + e * 4503599627370496 + f
    ensures e >= 1023 ==>
              Value(w) == (if s == 1 then -1.0 else 1.0) * (Two(e - 1023) as real * (1.0 + f as real / 4503599627370496.0))
    ensures e < 1023 ==>
              Value(w) == (if s == 1 then -1.0 else 1.0) * (1.0 / Two(1023 - e) as real * (1.0 + f as real / 4503599627370496.0))
  {
    hide Two, Sign, Exponent, Fraction, Magnitude, Scale, Times;
    FieldsOf(w, s, e, f);
    MagnitudeOfParts(w, e, f);
    ScaleIs(e);
    var m := 1.0 + f as real / 4503599627370496.0;
    SignedTimes(s == 1, Scale(e - 1023), m);
  }

  // ----- Division -----

  const ERROR64 := 0.0000000000000000001

  lemma Line64(d: real)
    requires 0.5 <= d <= 1.0
    ensures -0.0588236 <= Residual(d, Line(d)) <= 0.0588236
  {
    FirstResidual(2.8235294818878173828125, 1.88235294818878173828125, d);
    hide Residual;
  }

  lemma Bound64()
    ensures Sixteenth(0.0588236) <= ERROR64
  {
  }

  lemma SameScale(s: real, x: real, y: real)
    requires s > 0.0 && y > 0.0
    ensures Times(s, y) > 0.0 && Quotient(Times(s, x), Times(s, y)) == Quotient(x, y)
  {
    var q := x / y;
    assert x == q * y;
    Positive(s, y);
    assert s * x == q * (s * y);
    IsTheQuotient(s * x, s * y, q);
  }

  lemma Positive(x: real, y: real)
    requires x > 0.0 && y > 0.0
    ensures x * y > 0.0
  {
  }

  lemma TimesAssociate(x: real, y: real, z: real)
    ensures Times(x * y, z) == Times(x, Times(y, z))
  {
  }

  lemma NormalMagnitude(w: Word, k: int)
    requires IsNormal(w)
    ensures Magnitude(w) == Times(Scale(k), Times(Scale(Exponent(w) - 1023 - k), Significand(w)))
  {
    hide Scale, Significand, Exponent, Times;
    var j := Exponent(w) - 1023 - k;
    ScaleAdd(k, j);
    TimesAssociate(Scale(k), Scale(j), Significand(w));
    assert k + j == Exponent(w) - 1023;
    assert Magnitude(w) == Times(Scale(k + j), Significand(w));
  }

  lemma HalfRange(w: Word)
    requires Exponent(w) == 1022
    ensures 0.5 <= Magnitude(w) < 1.0
  {
    HalfScale();
    hide Scale, Significand, Exponent;
  }

  /** Moving both exponents by the same amount does not change the quotient. */
  lemma ScaledOperands(n: Word, d: Word, a: Word, b: Word)
    requires IsNormal(n) && IsNormal(d) && 1 <= Exponent(n) - Exponent(d) + 1022 <= 2046
    requires Exponent(a) == Exponent(n) - Exponent(d) + 1022 && Significand(a) == Significand(n)
    requires Exponent(b) == 1022 && Significand(b) == Significand(d)
    ensures 0.5 <= Magnitude(b) < 1.0 && Magnitude(d) > 0.0
    ensures Quotient(Magnitude(a), Magnitude(b)) == Quotient(Magnitude(n), Magnitude(d))
  {
    hide Exponent, Significand, Scale, Quotient, Times;
    var k := Exponent(d) - 1022;
    NormalMagnitude(n, k);
    NormalMagnitude(d, k);
    assert Magnitude(a) == Times(Scale(Exponent(n) - 1023 - k), Significand(n));
    assert Magnitude(b) == Times(Scale(Exponent(d) - 1023 - k), Significand(d));
    hide Magnitude, IsNormal;
    HalfRange(b);
    SameScale(Scale(k), Magnitude(a), Magnitude(b));
  }

  lemma SameSignificand(v: Word, w: Word)
    requires Fraction(v) == Fraction(w)
    ensures Significand(v) == Significand(w)
  {
  }

  lemma HalfScale()
    ensures Scale(-1) == 0.5
  {
    ScaleNext(-1);
    TwoAtZero();
  }

  function Steps(d: real, x: real, k: nat): real
    decreases k
  {
    if k == 0 then x else Steps(d, Step(d, x), k - 1)
  }

  lemma StepsAreFour(d: real, x: real, k: nat)
    requires k == 4
    ensures Steps(d, x, k) == FourSteps(d, x)
  {
    hide Step;
  }

  /** The straight line that starts the iteration. */
  function Line(b: real): real {
    2.8235294818878173828125 - 1.88235294818878173828125 * b
  }

  /** The reciprocal of the scaled divisor. */
  method Reciprocal(b: real) returns (x: real)
    ensures x == FourSteps(b, Line(b))
  {
    hide FourSteps, Step;
    x := Line(b);
    var i := 0;
    StepsAreFour(b, x, 4);
    while i < 4
      invariant 0 <= i <= 4
      invariant FourSteps(b, Line(b)) == Steps(b, x, 4 - i)
    {
      x := Step(b, x);
      i := i + 1;
    }
  }

  /** The words a_new and b_new, with exponents moved to where the divisor is in [1/2, 1). */
  method ScaleOperands(n: Word, d: Word) returns (a: Word, b: Word)
    ensures Exponent(a) == (if n % P63 == 0 then 0 else (Exponent(n) - Exponent(d) + 1022) % P11)
    ensures Exponent(b) == 1022 && Sign(a) == Sign(b) == 0
    ensures Fraction(a) == Fraction(n) && Fraction(b) == Fraction(d)
  {
    SlicesAreFields(n);
    SlicesAreFields(d);
    var e1, e2 := GetSlice(n, 2, 2 * P52), GetSlice(d, 2, 2 * P52);
    var e1New := if GetSlice(n, 2, 2) == 0 then 0 else (e1 - e2 + 1022) % 0x1_0000;
    WrapTwice(e1 - e2 + 1022);
    hide GetSlice, Exponent, Sign, Fraction, SetExponent, SetSign;
    a := SetSign(SetExponent(n, e1New), 0);
    b := SetSign(SetExponent(d, 1022), 0);
  }

  lemma WrapTwice(x: int)
    ensures x % 0x1_0000 % P11 == x % P11
  {
    var q := x / 0x1_0000;
    assert x == P11 * (32 * q) + x % 0x1_0000;
    DropMultiple(P11, 32 * q, x % 0x1_0000);
  }

  /** The result is the word's sign bit and the magnitude of the other bits. */
  method Fpdiv64(n: Word, d: Word) returns (negative: bool, magnitude: real)
    ensures negative == (Sign(n) != Sign(d))
    ensures n % P63 == 0 || d % P63 == 0 ==> magnitude == 0.0
    ensures IsNormal(n) && IsNormal(d) && 1 <= Exponent(n) - Exponent(d) + 1022 <= 2046 ==>
              Value(d) != 0.0 && IsQuotient(if negative then -magnitude else magnitude, Value(n), Value(d), 0.0000000000000000001)
  {
    SlicesAreFields(n);
    SlicesAreFields(d);
    Fields(n);
    Fields(d);
    hide FourSteps, Times, IsQuotient, Exponent, Sign, Fraction, Magnitude, Value, Line, GetSlice;
    var nVal, dVal := GetSlice(n, 2, 2), GetSlice(d, 2, 2);
    var a, b := ScaleOperands(n, d);
    var x := Reciprocal(Magnitude(b));
    magnitude := if nVal != 0 && dVal != 0 then Times(Magnitude(a), x) else 0.0;
    negative := (GetSlice(n, 1, P63) + GetSlice(d, 1, P63)) % 2 == 1;
    if IsNormal(n) && IsNormal(d) && 1 <= Exponent(n) - Exponent(d) + 1022 <= 2046 {
      NormalIsNotZero(n);
      NormalIsNotZero(d);
      NormalQuotient(n, d, a, b, x, magnitude, negative);
    }
  }

  lemma NormalIsNotZero(w: Word)
    requires IsNormal(w)
    ensures w % P63 != 0
  {
    SlicesAreFields(w);
    Fields(w);
  }

  lemma NormalQuotient(n: Word, d: Word, a: Word, b: Word, x: real, r: real, negative: bool)
    requires IsNormal(n) && IsNormal(d) && 1 <= Exponent(n) - Exponent(d) + 1022 <= 2046
    requires Exponent(a) == Exponent(n) - Exponent(d) + 1022 && Fraction(a) == Fraction(n)
    requires Exponent(b) == 1022 && Fraction(b) == Fraction(d)
    requires x == FourSteps(Magnitude(b), Line(Magnitude(b)))
    requires r == Times(Magnitude(a), x) && negative == (Sign(n) != Sign(d))
    ensures Value(d) != 0.0 && IsQuotient(if negative then -r else r, Value(n), Value(d), ERROR64)
  {
    hide IsQuotient, Sixteenth, Residual, FourSteps, Magnitude, Times, Exponent, Fraction;
    SameSignificand(a, n);
    SameSignificand(b, d);
    ScaledOperands(n, d, a, b);
    var m := Magnitude(b);
    Line64(m);
    Bound64();
    NewtonQuotient(Magnitude(a), m, Line(m), 0.0588236, ERROR64);
    QuotientOfNormalised(r, Magnitude(a), m, Magnitude(n), Magnitude(d), ERROR64);
    SignedQuotient(r, Magnitude(n), Magnitude(d), ERROR64);
    Fields(n);
    Fields(d);
  }
}
