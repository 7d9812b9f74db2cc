/** Remainders, powers of two, powers modulo m, the order of an element, and what primes are needed for to find it. */
module NumberTheory {

  // ----- Remainders -----

  lemma Remainder(x: int, m: nat, q: int, r: int)
    requires m > 0 && x == m * q + r && 0 <= r < m
    ensures x % m == r && x / m == q
  {
    var d := x / m - q;
    assert m * d == r - x % m by {
      assert m * (x / m) + x % m == x;
      assert m * d == m * (x / m) - m * q;
    }
    if d > 0 {
      AtLeast(m, d);
    } else if d < 0 {
      AtLeast(m, -d);
    }
  }

  lemma AtLeast(m: nat, d: int)
    requires d > 0
    ensures m * d >= m
  {
  }

  lemma DropMultiple(m: nat, c: int, x: int)
    requires m > 0
    ensures (m * c + x) % m == x % m
  {
    assert m * c + x == m * (c + x / m) + x % m by {
      assert m * (c + x / m) == m * c + m * (x / m);
    }
    Remainder(m * c + x, m, c + x / m, x % m);
  }

  lemma ReduceFactor(m: nat, x: int, y: int)
    requires m > 0
    ensures (x % m) * y % m == x * y % m
  {
    var q := x / m;
    assert x * y == m * (q * y) + (x % m) * y by {
      assert x == m * q + x % m;
      assert x * y == (m * q) * y + (x % m) * y;
      assert (m * q) * y == m * (q * y);
    }
    DropMultiple(m, q * y, (x % m) * y);
  }

  lemma ReduceBoth(m: nat, x: int, y: int)
    requires m > 0
    ensures (x % m) * (y % m) % m == x * y % m
  {
    ReduceFactor(m, x, y % m);
    ReduceFactor(m, y, x);
    assert x * (y % m) == (y % m) * x && x * y == y * x;
  }

  lemma SameFactor(m: nat, x: int, y: int, z: int)
    requires m > 0 && x % m == y % m
    ensures x * z % m == y * z % m
  {
    ReduceFactor(m, x, z);
    ReduceFactor(m, y, z);
  }

  /** A factor with an inverse can be cancelled. */
  lemma CancelFactor(m: nat, a: int, inverse: int, x: int, y: int)
    requires m > 1 && inverse * a % m == 1
    requires a * x % m == a * y % m
    ensures x % m == y % m
  {
    CancelOne(m, a, inverse, x);
    CancelOne(m, a, inverse, y);
    SameFactor(m, a * x, a * y, inverse);
  }

  lemma CancelOne(m: nat, a: int, inverse: int, x: int)
    requires m > 1 && inverse * a % m == 1
    ensures a * x * inverse % m == x % m
  {
    assert a * x * inverse == inverse * a * x by {
      assert a * x * inverse == inverse * (a * x);
      assert inverse * (a * x) == inverse * a * x;
    }
    ReduceFactor(m, inverse * a, x);
  }

  lemma Associate(x: int, y: int, z: int)
    ensures x * (y * z) == x * y * z
  {
  }

  lemma LessTimes(x: int, y: int, z: int)
    requires 0 <= x && y <= z
    ensures x * y <= x * z
  {
  }

  // ----- Powers -----

  function Two(w: nat): (p: int)
    ensures p >= 1
  {
    if w == 0 then 1 else 2 * Two(w - 1)
  }

  lemma Doubled(w: nat)
    requires w > 0
    ensures Two(w) == 2 * Two(w - 1)
  {
  }

  lemma {:induction false} TwoOfSum(i: nat, j: nat)
    ensures Two(i + j) == Two(i) * Two(j)
  {
    if i > 0 {
      TwoOfSum(i - 1, j);
      Associate(2, Two(i - 1), Two(j));
    }
  }

  function Pow(a: int, k: nat): int {
    if k == 0 then 1 else a * Pow(a, k - 1)
  }

  lemma {:induction false} PowAdd(a: int, j: nat, k: nat)
    ensures Pow(a, j + k) == Pow(a, j) * Pow(a, k)
  {
    if j > 0 {
      PowAdd(a, j - 1, k);
      assert a * (Pow(a, j - 1) * Pow(a, k)) == a * Pow(a, j - 1) * Pow(a, k);
    }
  }

  lemma {:induction false} PowOfPow(a: int, j: nat, k: nat)
    ensures Pow(Pow(a, j), k) == Pow(a, k * j)
  {
    if k > 0 {
      PowOfPow(a, j, k - 1);
      PowAdd(a, j, (k - 1) * j);
      assert j + (k - 1) * j == k * j;
    }
  }

  lemma SameProduct(m: nat, x: int, y: int, p: int, q: int)
    requires m > 0 && x % m == y % m && p % m == q % m
    ensures x * p % m == y * q % m
  {
    ReduceBoth(m, x, p);
    ReduceBoth(m, y, q);
  }

  lemma {:induction false} PowOfSame(a: int, b: int, k: nat, m: nat)
    requires m > 0 && a % m == b % m
    ensures Pow(a, k) % m == Pow(b, k) % m
  {
    if k > 0 {
      PowOfSame(a, b, k - 1, m);
      SameProduct(m, a, b, Pow(a, k - 1), Pow(b, k - 1));
    }
  }

  // ----- Order -----

  predicate IsOrder(g: int, m: nat, n: nat)
    requires m > 1
  {
    n > 0 && Pow(g, n) % m == 1 && forall k :: 0 < k < n ==> Pow(g, k) % m != 1
  }

  lemma {:induction false} OrderExists(g: int, m: nat, k: nat, top: nat) returns (n: nat)
    requires m > 1 && 0 < k <= top && Pow(g, top) % m == 1
    requires forall i :: 0 < i < k ==> Pow(g, i) % m != 1
    ensures IsOrder(g, m, n)
    decreases top - k
  {
    if Pow(g, k) % m == 1 {
      n := k;
    } else {
      n := OrderExists(g, m, k + 1, top);
    }
  }

  lemma ShiftByOrder(g: int, m: nat, n: nat, k: nat)
    requires m > 1 && Pow(g, n) % m == 1
    ensures Pow(g, n + k) % m == Pow(g, k) % m
  {
    PowAdd(g, n, k);
    ReduceFactor(m, Pow(g, n), Pow(g, k));
  }

  /** The powers that are 1 are those at the multiples of the order. */
  lemma {:induction false} OneAtMultiples(g: int, m: nat, n: nat, k: nat)
    requires m > 1 && IsOrder(g, m, n)
    ensures Pow(g, k) % m == 1 <==> k % n == 0
  {
    hide Pow;
    if k >= n {
      ShiftByOrder(g, m, n, k - n);
      hide IsOrder;
      OneAtMultiples(g, m, n, k - n);
      DropMultiple(n, 1, k - n);
    } else if k == 0 {
      PowZero(g);
    }
  }

  lemma PowZero(g: int)
    ensures Pow(g, 0) == 1
  {
  }

  // ----- Primes -----

  ghost predicate Prime(p: nat) {
    p >= 2 && forall d :: 2 <= d < p ==> p % d != 0
  }

  predicate NoDivisorIn(p: nat, d: nat, r: nat)
    requires d > 0
    decreases r - d
  {
    d >= r || (p % d != 0 && NoDivisorIn(p, d + 1, r))
  }

  lemma {:induction false} NoDivisors(p: nat, d: nat, r: nat)
    requires d > 0 && NoDivisorIn(p, d, r)
    ensures forall e :: d <= e < r ==> p % e != 0
    decreases r - d
  {
    if d < r {
      NoDivisors(p, d + 1, r);
    }
  }

  /** Trial division up to the square root. */
  lemma TrialDivision(p: nat, r: nat)
    requires 2 <= r <= p < r * r && NoDivisorIn(p, 2, r)
    ensures Prime(p)
  {
    NoDivisors(p, 2, r);
    forall d | r <= d < p ensures p % d != 0 {
      var k := p / d;
      if p == d * k {
        SmallCofactor(d, k, r);
        assert k >= 2;
        Remainder(p, k, d, 0);
      }
    }
  }

  lemma ProductAtLeast(d: nat, k: nat, r: nat)
    requires r <= d && r <= k
    ensures r * r <= d * k
  {
    LessTimes(r, r, k);
    LessTimes(k, r, d);
  }

  lemma SmallCofactor(d: nat, k: nat, r: nat)
    requires r <= d && d * k < r * r
    ensures k < r
  {
    if k >= r {
      ProductAtLeast(d, k, r);
    }
  }

  lemma TransitiveDivisor(c: nat, e: nat, d: nat)
    requires d > 0 && e > 0 && c % e == 0 && e % d == 0
    ensures c % d == 0
  {
    var k, j := c / e, e / d;
    assert c == d * (j * k) by {
      assert c == e * k && e == d * j;
      assert (d * j) * k == d * (j * k);
    }
    DropMultiple(d, j * k, 0);
  }

  lemma {:induction false} PrimeDivisor(c: nat) returns (d: nat)
    requires c >= 2
    ensures Prime(d) && c % d == 0
  {
    if Prime(c) {
      d := c;
    } else {
      var e :| 2 <= e < c && c % e == 0;
      d := PrimeDivisor(e);
      TransitiveDivisor(c, e, d);
    }
  }

  lemma {:induction false} EuclidSmall(p: nat, a: nat, b: int)
    requires Prime(p) && 0 < a < p && a * b % p == 0
    ensures b % p == 0
    decreases a
  {
    if a > 1 {
      var r, q := p % a, p / a;
      assert r * b == p * b - q * (a * b) by {
        assert p == a * q + r;
        assert p * b == (a * q) * b + r * b;
        assert (a * q) * b == q * (a * b);
      }
      var k := a * b / p;
      assert q * (a * b) == p * (q * k) by {
        assert a * b == p * k;
        assert q * (p * k) == p * (q * k);
      }
      assert r * b == p * (b - q * k);
      DropMultiple(p, b - q * k, 0);
      EuclidSmall(p, r, b);
    }
  }

  /** A prime that divides a product divides a factor. */
  lemma Euclid(p: nat, a: int, b: int)
    requires Prime(p) && a * b % p == 0
    ensures a % p == 0 || b % p == 0
  {
    ReduceFactor(p, a, b);
    if a % p != 0 {
      EuclidSmall(p, a % p, b);
    }
  }

  function Product(ps: seq<nat>): nat {
    if ps == [] then 1 else ps[0] * Product(ps[1..])
  }

  lemma {:induction false} PrimeOfProduct(d: nat, ps: seq<nat>)
    requires Prime(d) && Product(ps) % d == 0 && forall i :: 0 <= i < |ps| ==> Prime(ps[i])
    ensures d in ps
  {
    if ps != [] {
      Euclid(d, ps[0], Product(ps[1..]));
      if ps[0] % d == 0 {
        assert d <= ps[0] by {
          if d > ps[0] { Remainder(ps[0], d, 0, ps[0]); }
        }
      } else {
        PrimeOfProduct(d, ps[1..]);
      }
    }
  }

  /** g has order n, the product of ps, if its n-th power is 1 and none of its n/p-th powers is. */
  lemma OrderIs(g: int, m: nat, n: nat, ps: seq<nat>)
    requires m > 1 && n > 0 && Product(ps) == n && Pow(g, n) % m == 1
    requires forall i :: 0 <= i < |ps| ==> Prime(ps[i]) && Pow(g, n / ps[i]) % m != 1
    ensures IsOrder(g, m, n)
  {
    hide Pow, Product, IsOrder;
    var o := OrderExists(g, m, 1, n);
    OneAtMultiples(g, m, o, n);
    var c := n / o;
    if c >= 2 {
      var d := PrimeDivisor(c);
      CofactorDivides(n, o, d);
      PrimeOfProduct(d, ps);
      OneAtMultiples(g, m, o, n / d);
    } else {
      assert n == o * c;
    }
  }

  lemma CofactorDivides(n: nat, o: nat, d: nat)
    requires o > 0 && d > 0 && n % o == 0 && (n / o) % d == 0
    ensures n % d == 0 && (n / d) % o == 0
  {
    var c := n / o;
    var e := c / d;
    assert n == d * (o * e) by {
      assert n == o * c && c == d * e;
      assert o * (d * e) == d * (o * e);
    }
    Remainder(n, d, o * e, 0);
    DropMultiple(o, e, 0);
  }
}
