/** The software divider: __DIV_LOOP and the signed and unsigned functions built on it, for any width w. */
module Divider {
  import opened NumberTheory

  /** Conversion to the unsigned type of w bits. */
  function ToUnsigned(w: nat, x: int): (r: nat)
    ensures r < Two(w)
  {
    x % Two(w)
  }

  /** Conversion to the signed type of w bits. */
  function ToSigned(w: nat, x: int): (r: int)
    requires w > 0
    ensures -Two(w - 1) <= r < Two(w - 1)
  {
    var u := x % Two(w);
    if u < Two(w - 1) then u else u - Two(w)
  }

  predicate IsUnsigned(w: nat, x: int) {
    0 <= x < Two(w)
  }

  predicate IsSigned(w: nat, x: int)
    requires w > 0
  {
    -Two(w - 1) <= x < Two(w - 1)
  }

  // ----- The loop -----

  /** q * d does not decrease when a whole number of divisors is moved from r to it. */
  lemma MoveDivisors(d: int, q: int, c: int, r: int, s: int)
    requires s == d * c
    ensures d * (q + c) + (r - s) == d * q + r
  {
  }

  lemma DoubleDivisor(d: int, c: int)
    ensures d * (2 * c) == 2 * (d * c)
  {
  }

  lemma QuotientFits(d: nat, q: nat, dividend: nat)
    requires d > 0 && d * q <= dividend
    ensures q <= dividend
  {
  }

  lemma FitsRegister(w: nat, x: int)
    requires IsUnsigned(w, x)
    ensures ToUnsigned(w, x) == x
  {
    Remainder(x, Two(w), 0, x);
  }

  /** The inner loop: the divisor is shifted until it is at least half of what is left. */
  method ShiftDivisor(w: nat, reducedDividend: nat, divisor: nat) returns (shiftedDivisor: nat, currQuotient: nat)
    requires 0 < divisor <= reducedDividend && IsUnsigned(w, reducedDividend)
    ensures shiftedDivisor == divisor * currQuotient && currQuotient > 0
    ensures reducedDividend / 2 <= shiftedDivisor <= reducedDividend
  {
    hide ToUnsigned;
    currQuotient, shiftedDivisor := 1, divisor;
    var half := reducedDividend / 2;
    while shiftedDivisor < half
      invariant shiftedDivisor == divisor * currQuotient
      invariant 0 < shiftedDivisor <= reducedDividend && currQuotient > 0
      decreases reducedDividend - shiftedDivisor
    {
      DoubleDivisor(divisor, currQuotient);
      QuotientFits(divisor, 2 * currQuotient, reducedDividend);
      FitsRegister(w, 2 * shiftedDivisor);
      FitsRegister(w, 2 * currQuotient);
      shiftedDivisor := ToUnsigned(w, 2 * shiftedDivisor);
      currQuotient := ToUnsigned(w, 2 * currQuotient);
    }
  }

  /** A bound on what is left after some rounds. */
  function LeftAfter(w: nat, rounds: nat): int {
    if rounds <= w then Two(w - rounds) else 0
  }

  lemma OneMoreRound(w: nat, rounds: nat, left: nat, shifted: nat)
    requires left <= LeftAfter(w, rounds) && left / 2 <= shifted <= left && shifted > 0
    ensures rounds <= w && left - shifted <= LeftAfter(w, rounds + 1)
  {
  }

  /** __DIV_LOOP. The shifts and the sum are those of w-bit registers; nothing is ever lost from them. rounds is the
      number of passes of the outer loop. */
  method DivLoop(w: nat, dividend: nat, divisor: nat) returns (quotient: nat, reducedDividend: nat, ghost rounds: nat)
    requires divisor > 0 && IsUnsigned(w, dividend) && IsUnsigned(w, divisor)
    ensures quotient == dividend / divisor && reducedDividend == dividend % divisor
    ensures rounds <= w + 1
  {
    hide ToUnsigned, LeftAfter, Two;
    quotient, reducedDividend, rounds := 0, dividend, 0;
    assert LeftAfter(w, 0) == Two(w) by { AtFirst(w); }
    while reducedDividend >= divisor
      invariant dividend == divisor * quotient + reducedDividend
      invariant rounds <= w + 1 && reducedDividend <= LeftAfter(w, rounds)
      decreases reducedDividend
    {
      var shiftedDivisor, currQuotient := ShiftDivisor(w, reducedDividend, divisor);
      MoveDivisors(divisor, quotient, currQuotient, reducedDividend, shiftedDivisor);
      OneMoreRound(w, rounds, reducedDividend, shiftedDivisor);
      QuotientFits(divisor, quotient + currQuotient, dividend);
      FitsRegister(w, quotient + currQuotient);
      quotient := ToUnsigned(w, quotient + currQuotient);
      reducedDividend := reducedDividend - shiftedDivisor;
      rounds := rounds + 1;
    }
    Remainder(dividend, divisor, quotient, reducedDividend);
  }

  lemma AtFirst(w: nat)
    ensures LeftAfter(w, 0) == Two(w)
  {
  }

  method Udiv(w: nat, dividend: nat, divisor: nat) returns (quotient: nat)
    requires IsUnsigned(w, dividend) && IsUnsigned(w, divisor)
    ensures quotient == if divisor == 0 then 0 else dividend / divisor
  {
    quotient := 0;
    if divisor != 0 {
      ghost var rounds;
      var r;
      quotient, r, rounds := DivLoop(w, dividend, divisor);
    }
  }

  method Urem(w: nat, dividend: nat, divisor: nat) returns (reducedDividend: nat)
    requires IsUnsigned(w, dividend) && IsUnsigned(w, divisor)
    ensures reducedDividend == if divisor == 0 then dividend else dividend % divisor
  {
    reducedDividend := dividend;
    if divisor != 0 {
      ghost var rounds;
      var q;
      q, reducedDividend, rounds := DivLoop(w, dividend, divisor);
    }
  }

  // ----- Signed division -----

  function Abs(x: int): nat {
    if x < 0 then -x else x
  }

  function SignOf(x: int, y: int): int {
    if (x < 0) == (y < 0) then 1 else -1
  }

  /** What sdiv returns. */
  function SDiv(w: nat, dividend: int, divisor: int): int
    requires w > 0
  {
    if divisor == 0 then -1 else ToSigned(w, SignOf(dividend, divisor) * (Abs(dividend) / Abs(divisor)))
  }

  /** What srem returns. */
  function SRem(dividend: int, divisor: int): int {
    if divisor == 0 then dividend else SignOf(dividend, divisor) * (Abs(dividend) % Abs(divisor))
  }

  lemma SignedSmall(w: nat, x: int)
    requires w > 0 && IsSigned(w, x)
    ensures ToSigned(w, x) == x
  {
    Doubled(w);
    var p := Two(w - 1);
    hide Two;
    if x >= 0 { Remainder(x, 2 * p, 0, x); } else { Remainder(x, 2 * p, -1, x + 2 * p); }
  }

  /** The absolute value, taken in w bits, of the least value as well. */
  lemma UnsignedAbs(w: nat, x: int)
    requires w > 0 && IsSigned(w, x)
    ensures ToUnsigned(w, if x < 0 then ToSigned(w, -x) else x) == Abs(x)
  {
    Doubled(w);
    var p := Two(w - 1);
    hide Two;
    if x == -p {
      Remainder(p, 2 * p, 0, p);
      Remainder(-p, 2 * p, -1, p);
    } else {
      SignedSmall(w, -x);
      Remainder(Abs(x), 2 * p, 0, Abs(x));
    }
  }

  lemma NegateSigned(w: nat, x: int)
    requires w > 0
    ensures ToSigned(w, -ToSigned(w, x)) == ToSigned(w, -x)
  {
    var p := Two(w);
    var u := x % p;
    assert x == p * (x / p) + u;
    DropMultiple(p, -(x / p), -u);
    assert -x == p * -(x / p) + -u;
    DropMultiple(p, 1, -u);
  }

  method Sdiv(w: nat, dividend: int, divisor: int) returns (quotient: int)
    requires w > 0 && IsSigned(w, dividend) && IsSigned(w, divisor)
    ensures quotient == SDiv(w, dividend, divisor)
    ensures divisor == 0 ==> quotient == -1
  {
    hide ToSigned, ToUnsigned;
    var sign := 1;
    UnsignedAbs(w, dividend);
    UnsignedAbs(w, divisor);
    var udividend := ToUnsigned(w, if dividend < 0 then ToSigned(w, -dividend) else dividend);
    if dividend < 0 { sign := -sign; }
    var udivisor := ToUnsigned(w, if divisor < 0 then ToSigned(w, -divisor) else divisor);
    if divisor < 0 { sign := -sign; }
    quotient := -1;
    if udivisor != 0 {
      var q := Udiv(w, udividend, udivisor);
      quotient := ToSigned(w, q);
      if sign < 0 {
        NegateSigned(w, q);
        quotient := ToSigned(w, -quotient);
      }
    }
  }

  method Srem(w: nat, dividend: int, divisor: int) returns (remainder: int)
    requires w > 0 && IsSigned(w, dividend) && IsSigned(w, divisor)
    ensures remainder == SRem(dividend, divisor)
    ensures divisor == 0 ==> remainder == dividend
  {
    hide ToSigned, ToUnsigned;
    var sign := 1;
    UnsignedAbs(w, dividend);
    UnsignedAbs(w, divisor);
    var udividend := ToUnsigned(w, if dividend < 0 then ToSigned(w, -dividend) else dividend);
    if dividend < 0 { sign := -sign; }
    var udivisor := ToUnsigned(w, if divisor < 0 then ToSigned(w, -divisor) else divisor);
    if divisor < 0 { sign := -sign; }
    remainder := dividend;
    if udivisor != 0 {
      var r: int := Urem(w, udividend, udivisor);
      SignedSmall(w, r);
      SignedSmall(w, -r);
      remainder := ToSigned(w, r);
      if sign < 0 {
        remainder := ToSigned(w, -remainder);
      }
    }
  }

  // ----- What the signed pair is good for -----

  lemma UnsignedParts(dividend: int, divisor: int) returns (q: int, r: int)
    requires divisor != 0
    ensures q == Abs(dividend) / Abs(divisor) && r == Abs(dividend) % Abs(divisor)
    ensures Abs(dividend) == Abs(divisor) * q + r && 0 <= r < Abs(divisor) && q >= 0
  {
    q, r := Abs(dividend) / Abs(divisor), Abs(dividend) % Abs(divisor);
  }

  lemma QuotientIsSmaller(x: nat, d: nat, q: nat, r: nat)
    requires d > 0 && x == d * q + r
    ensures q <= x && (d >= 2 && x > 0 ==> q < x)
  {
    if d >= 2 {
      assert d * q >= 2 * q;
    } else {
      assert d * q == q;
    }
  }

  /** For a positive divisor the pair is the truncating division of C. */
  lemma TruncatingDivision(w: nat, dividend: int, divisor: int)
    requires w > 0 && IsSigned(w, dividend) && IsSigned(w, divisor) && divisor > 0
    ensures var q, r := SDiv(w, dividend, divisor), SRem(dividend, divisor);
      && dividend == divisor * q + r
      && Abs(r) < divisor && (r != 0 ==> (r < 0 <==> dividend < 0))
  {
    hide ToSigned, Two;
    var q, r := UnsignedParts(dividend, divisor);
    QuotientIsSmaller(Abs(dividend), divisor, q, r);
    SignedSmall(w, SignOf(dividend, divisor) * q);
    assert divisor * -q == -(divisor * q);
  }

  /** The quotient by cases: truncated toward zero, unless that does not fit. */
  lemma SignedQuotientIs(w: nat, dividend: int, divisor: int)
    requires w > 0 && IsSigned(w, dividend) && IsSigned(w, divisor)
    ensures var q := SDiv(w, dividend, divisor);
      && (divisor == 0 ==> q == -1)
      && (dividend >= 0 && divisor > 0 ==> q == dividend / divisor)
      && (dividend < 0 && divisor > 0 ==> q == -((-dividend) / divisor))
      && (dividend >= 0 && divisor < 0 ==> q == -(dividend / (-divisor)))
      && (dividend < 0 && divisor < 0 && !(dividend == -Two(w - 1) && divisor == -1) ==> q == (-dividend) / (-divisor))
  {
    hide ToSigned, Two;
    if divisor != 0 {
      var q, r := UnsignedParts(dividend, divisor);
      QuotientIsSmaller(Abs(dividend), Abs(divisor), q, r);
      if !(dividend == -Two(w - 1) && divisor == -1) {
        SignedSmall(w, SignOf(dividend, divisor) * q);
      }
    }
  }

  /** The remainder by cases: it has the sign of the quotient. */
  lemma SignedRemainderIs(dividend: int, divisor: int)
    ensures var r := SRem(dividend, divisor);
      && (divisor == 0 ==> r == dividend)
      && (dividend >= 0 && divisor > 0 ==> r == dividend % divisor)
      && (dividend < 0 && divisor > 0 ==> r == -((-dividend) % divisor))
      && (dividend >= 0 && divisor < 0 ==> r == -(dividend % (-divisor)))
      && (dividend < 0 && divisor < 0 ==> r == (-dividend) % (-divisor))
  {
  }

  /** The exact condition: srem gives a remainder of the wrong sign for a negative divisor, and the quotient of the
      least value by -1 does not fit. */
  lemma SignedPairIdentity(w: nat, dividend: int, divisor: int)
    requires w > 1 && IsSigned(w, dividend) && IsSigned(w, divisor) && divisor != 0
    ensures dividend == divisor * SDiv(w, dividend, divisor) + SRem(dividend, divisor) <==>
            divisor > 0 || (Abs(dividend) % Abs(divisor) == 0 && !(dividend == -Two(w - 1) && divisor == -1))
  {
    if divisor > 0 {
      TruncatingDivision(w, dividend, divisor);
    } else {
      NegativeDivisor(w, dividend, divisor);
    }
  }

  lemma NegativeDivisor(w: nat, dividend: int, divisor: int)
    requires w > 1 && IsSigned(w, dividend) && IsSigned(w, divisor) && divisor < 0
    ensures dividend == divisor * SDiv(w, dividend, divisor) + SRem(dividend, divisor) <==>
            Abs(dividend) % Abs(divisor) == 0 && !(dividend == -Two(w - 1) && divisor == -1)
  {
    hide ToSigned, Two;
    var q, r := UnsignedParts(dividend, divisor);
    QuotientIsSmaller(Abs(dividend), -divisor, q, r);
    assert (-divisor) * q == -(divisor * q) && divisor * -q == -(divisor * q);
    if dividend == -Two(w - 1) && divisor == -1 {
      LeastDoesNotFit(w);
    } else {
      SignedSmall(w, SignOf(dividend, divisor) * q);
    }
  }

  lemma LeastDoesNotFit(w: nat)
    requires w > 1
    ensures ToSigned(w, Two(w - 1)) != Two(w - 1)
  {
    Doubled(w);
    hide Two;
    Remainder(Two(w - 1), Two(w), 0, Two(w - 1));
  }

  /** 7 is not -2 * -3 + -1. */
  lemma NegativeDivisorFails()
    ensures SDiv(32, 7, -2) == -3 && SRem(7, -2) == -1
  {
    assert Two(31) >= 4 by { Doubled(31); Doubled(30); }
    SignedSmall(32, -3);
    hide ToSigned, Two;
  }
}
