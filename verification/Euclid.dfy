/** Euclid's algorithm of examples/gcd on its 16-bit software divider. */
module Euclid {
  import opened NumberTheory
  import opened Divider

  const ORDER := 16
  const WIDTH: nat := 16

  type UInt16 = x: int | 0 <= x < 0x1_0000

  lemma WidthIs16(x: int)
    ensures IsUnsigned(WIDTH, x) <==> 0 <= x < 0x1_0000
  {
    assert Two(8) == 0x100;
    TwoOfSum(8, 8);
    hide Two;
  }

  /** udiv16 with its remainder: shortcuts for the divisors 0 and 1 and for a small dividend, else the long division. */
  method Udiv16(dividend: UInt16, divisor: UInt16) returns (quotient: UInt16, remainder: UInt16)
    ensures divisor == 0 ==> quotient == 0xffff && remainder == 0
    ensures divisor != 0 ==> quotient == dividend / divisor && remainder == dividend % divisor
  {
    quotient, remainder := 0xffff, 0;
    if divisor == 0 {
      return;
    } else if divisor == 1 {
      return dividend, 0;
    } else if divisor > dividend {
      Remainder(dividend, divisor, 0, dividend);
      return 0, dividend;
    }
    WidthIs16(dividend);
    WidthIs16(divisor);
    hide Two;
    var q, r, rounds := DivLoop(WIDTH, dividend, divisor);
    Remainder(dividend, divisor, q, r);
    QuotientFits(divisor, q, dividend);
    quotient, remainder := q, r;
  }

  // ----- What is computed -----

  function Gcd(a: nat, b: nat): nat
    decreases b
  {
    if b == 0 then a else Gcd(b, a % b)
  }

  /** The divisions that the loop of gcd2 does for these values of H and L. */
  function Divisions(h: nat, l: nat): nat
    decreases l
  {
    if l == 0 then 0 else 1 + Divisions(l, h % l)
  }

  predicate Divides(d: nat, x: nat) {
    d > 0 && x % d == 0
  }

  lemma DividesCombination(d: nat, x: nat, y: nat, q: nat)
    requires Divides(d, x)
    ensures Divides(d, x * q + y) <==> Divides(d, y)
  {
    assert x == d * (x / d);
    assert x * q == d * (x / d * q) by { Associate(d, x / d, q); }
    DropMultiple(d, x / d * q, y);
  }

  lemma DividesRemainder(d: nat, a: nat, b: nat)
    requires b > 0 && Divides(d, b)
    ensures Divides(d, a) <==> Divides(d, a % b)
  {
    DividesCombination(d, b, a % b, a / b);
    hide Divides;
    assert a == b * (a / b) + a % b;
  }

  /** The common divisors of two numbers are the divisors of their Gcd. */
  lemma {:induction false} CommonDivisors(a: nat, b: nat, d: nat)
    requires d > 0
    ensures Divides(d, a) && Divides(d, b) <==> Divides(d, Gcd(a, b))
    decreases b
  {
    if b == 0 {
      DropMultiple(d, 0, 0);
    } else {
      hide Divides;
      CommonDivisors(b, a % b, d);
      if Divides(d, b) {
        DividesRemainder(d, a, b);
      }
    }
  }

  lemma {:induction false} GcdPositive(a: nat, b: nat)
    requires a > 0
    ensures Gcd(a, b) > 0
    decreases b
  {
    if b > 0 {
      GcdPositive(b, a % b);
    }
  }

  /** The greatest of the common divisors: it is one, and every other divides it. */
  ghost predicate IsGcd(g: nat, a: nat, b: nat) {
    && Divides(g, a) && Divides(g, b)
    && forall d: nat :: Divides(d, a) && Divides(d, b) ==> Divides(d, g)
  }

  lemma GcdIsGcd(a: nat, b: nat)
    requires a > 0
    ensures IsGcd(Gcd(a, b), a, b)
  {
    GcdPositive(a, b);
    DropMultiple(Gcd(a, b), 1, 0);
    CommonDivisors(a, b, Gcd(a, b));
    forall d: nat | Divides(d, a) && Divides(d, b) ensures Divides(d, Gcd(a, b)) {
      CommonDivisors(a, b, d);
    }
  }

  // ----- Lame's bound -----

  function Fib(n: nat): nat {
    if n < 2 then n else Fib(n - 1) + Fib(n - 2)
  }

  lemma {:induction false} Lame(h: nat, l: nat)
    requires h > l > 0
    ensures var n := Divisions(h, l); l >= Fib(n + 1) && h >= Fib(n + 2)
    decreases l
  {
    var r := h % l;
    if r > 0 {
      Lame(l, r);
      assert h == l * (h / l) + r;
      QuotientIsPositive(h, l);
      var n := Divisions(l, r);
      assert Fib(n + 3) == Fib(n + 2) + Fib(n + 1);
    } else {
      assert Divisions(l, 0) == 0;
      assert Fib(2) == 1 && Fib(3) == 2;
    }
  }

  lemma QuotientIsPositive(h: nat, l: nat)
    requires h > l > 0
    ensures l * (h / l) >= l
  {
    var q := h / l;
    assert h == l * q + h % l;
    if q > 0 {
      AtLeast(l, q);
    }
  }

  lemma {:induction false} FibOfSum(m: nat, n: nat)
    ensures Fib(m + n + 1) == Fib(m + 1) * Fib(n + 1) + Fib(m) * Fib(n)
    decreases n
  {
    FirstFibs();
    hide Fib;
    if n == 1 {
      FibNext(m);
    } else if n > 1 {
      FibOfSum(m, n - 1);
      FibOfSum(m, n - 2);
      FibNext(m + n - 1);
      FibNext(n - 1);
      FibNext(n - 2);
      Distribute(Fib(m + 1), Fib(n), Fib(n - 1));
      Distribute(Fib(m), Fib(n - 1), Fib(n - 2));
    }
  }

  lemma FirstFibs()
    ensures Fib(0) == 0 && Fib(1) == 1 && Fib(2) == 1
  {
  }

  lemma FibNext(k: nat)
    ensures Fib(k + 2) == Fib(k + 1) + Fib(k)
  {
  }

  lemma Distribute(x: nat, y: nat, z: nat)
    ensures x * (y + z) == x * y + x * z
  {
  }

  lemma {:induction false} FibGrows(i: nat, j: nat)
    requires i <= j
    ensures Fib(i) <= Fib(j)
  {
    if i < j {
      FibGrows(i, j - 1);
    }
  }

  lemma Fib25(k: nat)
    requires k == 12
    ensures Fib(k + k + 1) == 75025
  {
    assert Fib(12) == 144 && Fib(13) == 233;
    FibOfSum(k, k);
  }

  /** Never more than 22 divisions on 16-bit values. */
  lemma AtMost22Divisions(h: UInt16, l: UInt16)
    requires h >= l > 0
    ensures Divisions(h, l) <= 22
  {
    hide Fib;
    if h > l {
      Lame(h, l);
      var n := Divisions(h, l);
      hide Divisions;
      if n >= 23 {
        FibGrows(12 + 12 + 1, n + 2);
        Fib25(12);
      }
    } else {
      Remainder(h, l, 1, 0);
    }
  }

  lemma SmallerIsFib(h: nat, l: nat)
    requires h >= l > 0
    ensures Fib(Divisions(h, l) + 1) <= l
  {
    if h > l {
      Lame(h, l);
    } else {
      FirstFibs();
      hide Fib;
      Remainder(h, l, 1, 0);
    }
  }

  /** Neighbouring Fibonacci numbers are the worst case: 46368 and 28657, the 24th and the 23rd, need all 22. */
  lemma {:induction false} FibonacciIsWorst(n: nat)
    requires n >= 1
    ensures Fib(n + 1) > 0 && Divisions(Fib(n + 2), Fib(n + 1)) == n
  {
    FibNext(n);
    if n == 1 {
      FirstFibs();
      assert Divisions(2, 1) == 1 + Divisions(1, 0);
    } else {
      FibonacciIsWorst(n - 1);
      FibNext(n - 1);
      FibPositive(n - 1);
      Remainder(Fib(n + 2), Fib(n + 1), 1, Fib(n));
      hide Fib;
    }
  }

  lemma {:induction false} FibPositive(n: nat)
    requires n >= 1
    ensures Fib(n) > 0
  {
    if n > 2 {
      FibPositive(n - 1);
    }
  }

  // ----- gcd.c -----

  /** gcd2. For a zero input it returns a variable it has not set; unset is what that happens to hold. */
  method Gcd2(a: UInt16, b: UInt16, unset: UInt16) returns (r: UInt16, ghost divisions: nat)
    ensures a > 0 && b > 0 ==> IsGcd(r, a, b) && 0 < r <= a && r <= b
    ensures a == 0 || b == 0 ==> r == unset && divisions == 0
    ensures a > 0 && b > 0 ==> divisions <= 22 && Fib(divisions + 1) <= a && Fib(divisions + 1) <= b
  {
    var l: UInt16, h: UInt16 := if a < b then a else b, if a < b then b else a;
    ghost var l0, h0 := l, h;
    if l > 0 {
      GcdIsGcd(h, l);
      AtMost22Divisions(h, l);
      SmallerIsFib(h, l);
    }
    r := unset;
    divisions := 0;
    while l != 0
      invariant l0 == 0 ==> l == 0 && r == unset && divisions == 0
      invariant l0 > 0 ==> h > 0 && Gcd(h, l) == Gcd(h0, l0) && (l == 0 ==> r == h)
      invariant divisions + Divisions(h, l) == Divisions(h0, l0)
      decreases l
    {
      r := l;
      var tmp := l;
      var q;
      q, l := Udiv16(h, l);
      h := tmp;
      divisions := divisions + 1;
    }
    if l0 > 0 {
      DivisorAtMost(r, a);
      DivisorAtMost(r, b);
    }
  }

  lemma DivisorAtMost(d: nat, x: nat)
    requires Divides(d, x) && x > 0
    ensures d <= x
  {
    if d > x {
      Remainder(x, d, 0, x);
    }
  }

  /** A divisor of all of the first m entries. */
  ghost predicate DividesAll(d: nat, n: seq<UInt16>, m: nat)
    requires m <= |n|
  {
    forall i :: 0 <= i < m ==> Divides(d, n[i])
  }

  /** No zero among the first m entries. */
  predicate NoZero(n: seq<UInt16>, m: nat)
    requires m <= |n|
  {
    forall i :: 0 <= i < m ==> n[i] > 0
  }

  /** gcd, over the whole array; unset[i] is what the variable happens to hold in the call that takes in entry i. */
  method GcdOfArray(n: array<UInt16>, unset: seq<UInt16>) returns (g: UInt16)
    requires n.Length == |unset| == 16
    ensures NoZero(n[..], 16) ==> g > 0 && DividesAll(g, n[..], 16)
    ensures NoZero(n[..], 16) ==> forall d: nat :: DividesAll(d, n[..], 16) ==> Divides(d, g)
    ensures n[15] == 0 ==> g == unset[15]
  {
    ghost var count;
    g, count := Gcd2(n[0], n[1], unset[1]);
    var i := 2;
    while i < ORDER
      invariant 2 <= i <= ORDER
      invariant NoZero(n[..], i) ==> g > 0 && DividesAll(g, n[..], i)
      invariant NoZero(n[..], i) ==> forall d: nat :: DividesAll(d, n[..], i) ==> Divides(d, g)
      invariant n[i - 1] == 0 ==> g == unset[i - 1]
    {
      ghost var before := g;
      g, count := Gcd2(g, n[i], unset[i]);
      if NoZero(n[..], i + 1) {
        assert NoZero(n[..], i) && n[..][i] > 0;
        OneMore(n[..], i, before, g);
      }
      i := i + 1;
    }
  }

  lemma OneMore(n: seq<UInt16>, i: nat, before: nat, g: nat)
    requires i < |n| && IsGcd(g, before, n[i]) && DividesAll(before, n, i)
    requires forall d: nat :: DividesAll(d, n, i) ==> Divides(d, before)
    ensures DividesAll(g, n, i + 1)
    ensures forall d: nat :: DividesAll(d, n, i + 1) ==> Divides(d, g)
  {
    forall j | 0 <= j < i ensures Divides(g, n[j]) {
      TransitiveDivisor(n[j], before, g);
    }
    forall d: nat | DividesAll(d, n, i + 1) ensures Divides(d, g) {
      assert DividesAll(d, n, i) && Divides(d, n[i]);
    }
  }
}
