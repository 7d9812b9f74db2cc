/** The arithmetic of rngs.c: Schrage's form of the multiplication, the period of the generator, and the distance
    between its streams. */
module Lehmer {
  import opened NumberTheory
  import opened Divider

  const MODULUS := 2147483647
  const MULTIPLIER := 48271
  const A256 := 22925
  const STREAMS := 256
  /** The calls of Random between the starts of two neighbouring streams. */
  const JUMP := 8367782

  predicate IsInt32(x: int) {
    -0x8000_0000 <= x < 0x8000_0000
  }

  // ----- One multiplication -----

  /** The t of Random and PlantSeeds. */
  function SchrageDifference(a: int, s: int): int
    requires a > 0
  {
    a * SRem(s, MODULUS / a) - MODULUS % a * SDiv(32, s, MODULUS / a)
  }

  /** What Random makes of its seed for a == MULTIPLIER, and PlantSeeds of the previous one for a == A256. */
  function Next(a: int, s: int): int
    requires a > 0
  {
    var t := SchrageDifference(a, s);
    if t > 0 then t else t + MODULUS
  }

  predicate SuitsSchrage(a: int) {
    a > 0 && MODULUS % a + 1 < MODULUS / a
  }

  lemma Int32IsSigned(x: int)
    ensures IsInt32(x) <==> IsSigned(32, x)
  {
    assert Two(8) == 0x100;
    assert Two(7) == 0x80;
    TwoOfSum(8, 8);
    TwoOfSum(16, 8);
    TwoOfSum(24, 7);
    hide Two;
  }

  lemma QuotientBound(a: int, q: int, r: int, x: int, d: int, e: int)
    requires a > 0 && a * q + r == MODULUS && 0 <= r && r + 1 < q
    requires 0 <= x <= MODULUS + 1 && x == q * d + e && 0 <= e < q
    ensures 0 <= d <= a
  {
    if d > a {
      LessTimes(q, a + 1, d);
    } else if d < 0 {
      LessTimes(q, d, -1);
    }
  }

  lemma RemainderRange(a: int, q: int, r: int, e: int)
    requires a > 0 && a * q + r == MODULUS && 0 <= r && 0 <= e < q
    ensures 0 <= a * e < MODULUS
  {
    LessTimes(a, 0, e);
    LessTimes(a, e + 1, q);
    assert a * (e + 1) == a * e + a;
  }

  lemma QuotientRange(a: int, q: int, r: int, d: int)
    requires a > 0 && a * q + r == MODULUS && 0 <= r < q && 0 <= d <= a
    ensures 0 <= r * d < MODULUS
  {
    LessTimes(r, 0, d);
    LessTimes(r, d, a);
    LessTimes(a, r + 1, q);
    assert a * (r + 1) == r * a + a;
  }

  lemma Recombine(a: int, q: int, r: int, d: int, e: int)
    requires a * q + r == MODULUS
    ensures a * (q * d + e) == MODULUS * d + (a * e - r * d)
  {
    Associate(a, q, d);
    assert (a * q) * d == (MODULUS - r) * d;
  }

  /** The bounds behind Schrage's form, for a seed that is not negative. */
  lemma SmallQuotient(a: int, x: int, d: int, e: int)
    requires SuitsSchrage(a) && 0 <= x <= MODULUS + 1 && x == MODULUS / a * d + e && 0 <= e < MODULUS / a
    ensures var r := MODULUS % a;
      0 <= a * e < MODULUS && 0 <= r * d < MODULUS && a * x == MODULUS * d + (a * e - r * d)
  {
    var q, r := MODULUS / a, MODULUS % a;
    QuotientBound(a, q, r, x, d, e);
    RemainderRange(a, q, r, e);
    QuotientRange(a, q, r, d);
    Recombine(a, q, r, d, e);
  }

  lemma SmallQuotientSigned(a: int, s: int, d: int, e: int)
    requires SuitsSchrage(a) && -MODULUS - 1 <= s <= MODULUS + 1 && s == MODULUS / a * d + e
    requires -(MODULUS / a) < e < MODULUS / a && (s >= 0 ==> e >= 0) && (s < 0 ==> e <= 0)
    ensures var r := MODULUS % a;
      -MODULUS < a * e < MODULUS && -MODULUS < r * d < MODULUS && -MODULUS < a * e - r * d < MODULUS
      && a * s == MODULUS * d + (a * e - r * d)
  {
    var q, r := MODULUS / a, MODULUS % a;
    if s >= 0 {
      SmallQuotient(a, s, d, e);
    } else {
      assert q * -d == -(q * d);
      SmallQuotient(a, -s, -d, -e);
      assert a * -e == -(a * e) && r * -d == -(r * d) && a * -s == -(a * s) && MODULUS * -d == -(MODULUS * d);
    }
  }

  lemma SchrageParts(a: int, s: int)
    requires SuitsSchrage(a) && IsInt32(s)
    ensures var q, d, e := MODULUS / a, SDiv(32, s, MODULUS / a), SRem(s, MODULUS / a);
      s == q * d + e && -q < e < q && (s >= 0 ==> e >= 0) && (s < 0 ==> e <= 0)
  {
    var q := MODULUS / a;
    Int32IsSigned(s);
    Int32IsSigned(q);
    TruncatingDivision(32, s, q);
    hide SDiv, SRem, Two;
  }

  /** For every int32 seed the multiplication is exact modulo MODULUS, no intermediate value leaves int32, and the
      result is positive. */
  lemma SchrageIsExact(a: int, s: int)
    requires SuitsSchrage(a) && IsInt32(s)
    ensures IsInt32(a * SRem(s, MODULUS / a)) && IsInt32(MODULUS % a * SDiv(32, s, MODULUS / a))
    ensures IsInt32(SchrageDifference(a, s))
    ensures Next(a, s) % MODULUS == a * s % MODULUS && 0 < Next(a, s) <= MODULUS
  {
    hide SDiv, SRem;
    var d, e := SDiv(32, s, MODULUS / a), SRem(s, MODULUS / a);
    SchrageParts(a, s);
    SmallQuotientSigned(a, s, d, e);
    var t := SchrageDifference(a, s);
    DropMultiple(MODULUS, d, t);
    DropMultiple(MODULUS, 1, t);
  }

  predicate IsInverse(a: int, inverse: int) {
    inverse * a % MODULUS == 1
  }

  lemma MultipliersFit()
    ensures SuitsSchrage(MULTIPLIER) && IsInverse(MULTIPLIER, 1899818559)
    ensures SuitsSchrage(A256) && IsInverse(A256, 130394645)
  {
  }

  /** A zero of Random's difference, and so the state MODULUS, comes only from a multiple of MODULUS. */
  lemma NextOf(a: int, inverse: int, s: int)
    requires SuitsSchrage(a) && IsInverse(a, inverse) && IsInt32(s)
    ensures Next(a, s) == MODULUS <==> s % MODULUS == 0
    ensures s % MODULUS != 0 ==> Next(a, s) == a * s % MODULUS
  {
    SchrageIsExact(a, s);
    ZeroProduct(a, inverse, s);
    hide SuitsSchrage, IsInverse, Next;
    var n := Next(a, s);
    if n == MODULUS {
      DropMultiple(MODULUS, 1, 0);
    } else {
      Remainder(n, MODULUS, 0, n);
    }
  }

  lemma ZeroProduct(a: int, inverse: int, s: int)
    requires IsInverse(a, inverse)
    ensures a * s % MODULUS == 0 <==> s % MODULUS == 0
  {
    assert a * 0 == 0;
    if a * s % MODULUS == 0 {
      CancelFactor(MODULUS, a, inverse, s, 0);
    }
    if s % MODULUS == 0 {
      ReduceFactor(MODULUS, s, a);
      assert s * a == a * s;
    }
  }

  predicate IsSeed(s: int) {
    0 < s < MODULUS
  }

  lemma NextSeed(s: int)
    requires IsSeed(s)
    ensures IsSeed(Next(MULTIPLIER, s)) && Next(MULTIPLIER, s) == MULTIPLIER * s % MODULUS
    ensures IsSeed(Next(A256, s)) && Next(A256, s) == A256 * s % MODULUS
  {
    MultipliersFit();
    Remainder(s, MODULUS, 0, s);
    NextOf(MULTIPLIER, 1899818559, s);
    NextOf(A256, 130394645, s);
    SchrageIsExact(MULTIPLIER, s);
    SchrageIsExact(A256, s);
    hide *;
  }

  // ----- Many calls of Random -----

  /** The state after k calls of Random. */
  function States(s: int, k: nat): int {
    if k == 0 then s else Next(MULTIPLIER, States(s, k - 1))
  }

  lemma {:induction false} StatesArePowers(s: int, k: nat)
    requires IsSeed(s)
    ensures IsSeed(States(s, k)) && States(s, k) == Pow(MULTIPLIER, k) * s % MODULUS
  {
    hide Next;
    if k == 0 {
      Remainder(s, MODULUS, 0, s);
    } else {
      StatesArePowers(s, k - 1);
      NextSeed(States(s, k - 1));
      var p := Pow(MULTIPLIER, k - 1);
      ReduceFactor(MODULUS, p * s, MULTIPLIER);
      assert MULTIPLIER * (p * s % MODULUS) == (p * s % MODULUS) * MULTIPLIER;
      assert p * s * MULTIPLIER == MULTIPLIER * p * s;
    }
  }

  lemma {:induction false} StatesAdd(s: int, j: nat, k: nat)
    ensures States(States(s, j), k) == States(s, j + k)
  {
    hide Next;
    if k > 0 {
      StatesAdd(s, j, k - 1);
    }
  }

  // ----- Powers of the multiplier, by a chain of products -----

  ghost predicate Is(k: nat, x: int) {
    Pow(MULTIPLIER, k) % MODULUS == x
  }

  lemma Times(j: nat, x: int, k: nat, y: int, z: int)
    requires Is(j, x) && Is(k, y) && x * y % MODULUS == z
    ensures Is(j + k, z)
  {
    PowAdd(MULTIPLIER, j, k);
    ReduceBoth(MODULUS, Pow(MULTIPLIER, j), Pow(MULTIPLIER, k));
  }

  lemma Raise(k: nat, x: int, n: nat, z: int)
    requires Is(k, x) && Pow(x, n) % MODULUS == z
    ensures Is(n * k, z)
  {
    PowOfPow(MULTIPLIER, k, n);
    var p := Pow(MULTIPLIER, k);
    assert x % MODULUS == p % MODULUS;
    PowOfSame(x, p, n, MODULUS);
  }

  lemma PowOne(x: int)
    ensures Pow(x, 1) == x
  {
  }

  lemma First()
    ensures Is(1, 48271)
  {
    PowOne(MULTIPLIER);
  }

  lemma PowersOf32()
    ensures Is(32, 890442452) && Is(1024, 1491754107) && Is(32768, 1363399672) && Is(1048576, 924626149)
  {
    First();
    hide Is;
    Raise(1, 48271, 4, 1914720637);
    Raise(4, 1914720637, 8, 890442452);
    Raise(32, 890442452, 4, 1617261148);
    Raise(128, 1617261148, 8, 1491754107);
    Raise(1024, 1491754107, 4, 1176045659);
    Raise(4096, 1176045659, 8, 1363399672);
    Raise(32768, 1363399672, 4, 1335192557);
    Raise(131072, 1335192557, 8, 924626149);
  }

  // MODULUS - 1 == 2 * 31 * 33 * v == 2 * 7 * 31 * 151 * w == 2 * 9 * 11 * 31 * 331 * u, for v == 1 + 2^10 + 2^20,
  // w == 1 + 2^15 and u == 1 + 2^5 + 2^10.

  lemma TwoAndThree()
    ensures Is(MODULUS - 1, 1) && Is((MODULUS - 1) / 2, 2147483646) && Is((MODULUS - 1) / 3, 634005911)
    ensures Is(1049601, 127903094) && Is(32537631, 1755000599)
  {
    First();
    PowersOf32();
    hide Is;
    Times(1, 48271, 1024, 1491754107, 1188331440);
    Times(1025, 1188331440, 1048576, 924626149, 127903094);
    Raise(1049601, 127903094, 5, 694819040);
    Raise(5248005, 694819040, 3, 2107746297);
    Raise(15744015, 2107746297, 2, 1521965165);
    Times(31488030, 1521965165, 1049601, 127903094, 1755000599);
    Raise(32537631, 1755000599, 11, 634005912);
    Raise(357913941, 634005912, 2, 634005911);
    Raise(357913941, 634005912, 3, 2147483646);
    Raise(1073741823, 2147483646, 2, 1);
  }

  lemma ElevenAndThirtyOne()
    ensures Is((MODULUS - 1) / 11, 219454379) && Is((MODULUS - 1) / 31, 64)
  {
    TwoAndThree();
    hide Is;
    Raise(32537631, 1755000599, 3, 178271473);
    Raise(97612893, 178271473, 2, 219454379);
    Raise(1049601, 127903094, 11, 1268011824);
    Raise(11545611, 1268011824, 3, 2147483639);
    Raise(34636833, 2147483639, 2, 64);
  }

  lemma SevenAndHundredFiftyOne()
    ensures Is((MODULUS - 1) / 7, 1752599774) && Is((MODULUS - 1) / 151, 556613938)
  {
    First();
    PowersOf32();
    hide Is;
    Times(1, 48271, 32768, 1363399672, 881721150);
    Raise(32769, 881721150, 5, 1597856607);
    Raise(163845, 1597856607, 3, 720733336);
    Raise(491535, 720733336, 2, 2114457649);
    Times(983070, 2114457649, 32769, 881721150, 550556069);
    Raise(1015839, 550556069, 5, 439532105);
    Raise(5079195, 439532105, 5, 1091373316);
    Raise(25395975, 1091373316, 3, 1191632453);
    Raise(76187925, 1191632453, 2, 430005644);
    Times(152375850, 430005644, 1015839, 550556069, 1253228241);
    Raise(153391689, 1253228241, 2, 1752599774);
    Raise(1015839, 550556069, 7, 142300323);
    Raise(7110873, 142300323, 2, 556613938);
  }

  lemma ThreeHundredThirtyOne()
    ensures Is((MODULUS - 1) / 331, 1627574666)
  {
    First();
    PowersOf32();
    hide Is;
    Times(1, 48271, 32, 890442452, 662405787);
    Times(33, 662405787, 1024, 1491754107, 543336597);
    Raise(1057, 543336597, 5, 1447654679);
    Raise(5285, 1447654679, 3, 370448197);
    Raise(15855, 370448197, 2, 1543081960);
    Times(31710, 1543081960, 1057, 543336597, 2093369910);
    Raise(32767, 2093369910, 11, 260618258);
    Raise(360437, 260618258, 3, 2103130547);
    Raise(1081311, 2103130547, 3, 1150449276);
    Raise(3243933, 1150449276, 2, 1627574666);
  }

  /** A256 is the right multiplier for a jump of JUMP calls. */
  lemma JumpMultiplier()
    ensures Is(JUMP, A256)
  {
    First();
    hide Is;
    Raise(1, 48271, 7, 1105902161);
    Raise(1, 48271, 5, 2078669041);
    Raise(5, 2078669041, 3, 1271135913);
    Raise(15, 1271135913, 2, 631416347);
    Times(30, 631416347, 1, 48271, 2010567813);
    Raise(1, 48271, 11, 192302371);
    Raise(7, 1105902161, 3, 638022372);
    Raise(1, 48271, 3, 1291394886);
    Raise(3, 1291394886, 2, 407355683);
    Raise(7, 1105902161, 4, 1842513780);
    Raise(28, 1842513780, 8, 393565781);
    Times(224, 393565781, 31, 2010567813, 528003979);
    Raise(255, 528003979, 4, 2082024995);
    Raise(1020, 2082024995, 8, 1280216613);
    Times(8160, 1280216613, 11, 192302371, 845272749);
    Raise(8171, 845272749, 4, 573109395);
    Raise(32684, 573109395, 8, 2090957796);
    Times(261472, 2090957796, 21, 638022372, 1229000842);
    Raise(261493, 1229000842, 4, 1149613586);
    Raise(1045972, 1149613586, 8, 2062052657);
    Times(8367776, 2062052657, 6, 407355683, 22925);
  }

  // ----- The period -----

  lemma SmallPrimes()
    ensures Prime(2) && Prime(3) && Prime(7) && Prime(11) && Prime(31) && Prime(151) && Prime(331)
  {
    TrialDivision(2, 2);
    TrialDivision(3, 2);
    TrialDivision(7, 3);
    TrialDivision(11, 4);
    TrialDivision(31, 6);
    TrialDivision(151, 13);
    assert NoDivisorIn(331, 11, 19);
    TrialDivision(331, 19);
  }

  lemma FactorsOfPeriod()
    ensures Product([2, 3, 3, 7, 11, 31, 151, 331]) == MODULUS - 1
  {
  }

  /** MULTIPLIER is a primitive root modulo MODULUS. */
  lemma MultiplierOrder()
    ensures IsOrder(MULTIPLIER, MODULUS, MODULUS - 1)
  {
    SmallPrimes();
    FactorsOfPeriod();
    TwoAndThree();
    ElevenAndThirtyOne();
    SevenAndHundredFiftyOne();
    ThreeHundredThirtyOne();
    hide Pow, Product, Prime, IsOrder;
    OrderIs(MULTIPLIER, MODULUS, MODULUS - 1, [2, 3, 3, 7, 11, 31, 151, 331]);
  }

  lemma {:induction false} CancelPower(j: nat, x: int, y: int)
    requires Pow(MULTIPLIER, j) * x % MODULUS == Pow(MULTIPLIER, j) * y % MODULUS
    ensures x % MODULUS == y % MODULUS
  {
    if j > 0 {
      Associate(MULTIPLIER, Pow(MULTIPLIER, j - 1), x);
      Associate(MULTIPLIER, Pow(MULTIPLIER, j - 1), y);
      MultipliersFit();
      CancelFactor(MODULUS, MULTIPLIER, 1899818559, Pow(MULTIPLIER, j - 1) * x, Pow(MULTIPLIER, j - 1) * y);
      CancelPower(j - 1, x, y);
    }
  }

  /** From seed 1, two states are equal only if the period divides the distance between them. */
  lemma EqualStates(j: nat, k: nat)
    requires j <= k
    ensures States(1, j) == States(1, k) <==> (k - j) % (MODULUS - 1) == 0
  {
    hide States, Pow, IsOrder, Next;
    StatesArePowers(1, j);
    StatesArePowers(1, k);
    PowAdd(MULTIPLIER, j, k - j);
    MultiplierOrder();
    OneAtMultiples(MULTIPLIER, MODULUS, MODULUS - 1, k - j);
    EqualPowers(j, Pow(MULTIPLIER, k - j));
  }

  lemma EqualPowers(j: nat, d: int)
    ensures Pow(MULTIPLIER, j) * 1 % MODULUS == Pow(MULTIPLIER, j) * d % MODULUS <==> d % MODULUS == 1
  {
    hide Pow;
    var p := Pow(MULTIPLIER, j);
    if p * 1 % MODULUS == p * d % MODULUS {
      CancelPower(j, 1, d);
    }
    if d % MODULUS == 1 {
      SameFactor(MODULUS, d, 1, p);
      assert d * p == p * d;
    }
  }

  // ----- Every value is visited -----

  ghost function Visited(n: nat): (v: set<int>)
  {
    if n == 0 then {} else Visited(n - 1) + {States(1, n - 1)}
  }

  lemma {:induction false} VisitedAt(n: nat, v: int) returns (k: nat)
    requires v in Visited(n)
    ensures k < n && States(1, k) == v
  {
    hide States;
    if v == States(1, n - 1) {
      k := n - 1;
    } else {
      k := VisitedAt(n - 1, v);
    }
  }

  lemma {:induction false} VisitedCount(n: nat)
    requires n <= MODULUS - 1
    ensures |Visited(n)| == n
  {
    hide States;
    if n > 0 {
      VisitedCount(n - 1);
      if States(1, n - 1) in Visited(n - 1) {
        var k := VisitedAt(n - 1, States(1, n - 1));
        EqualStates(k, n - 1);
        Remainder(n - 1 - k, MODULUS - 1, 0, n - 1 - k);
      }
    }
  }

  ghost function UpTo(n: nat): (s: set<int>)
    ensures forall v :: v in s <==> 0 < v <= n
  {
    if n == 0 then {} else UpTo(n - 1) + {n}
  }

  lemma {:induction false} AtMost(a: set<int>, n: nat)
    requires a <= UpTo(n)
    ensures |a| <= n
  {
    if n == 0 {
      assert a == {};
    } else {
      AtMost(a - {n}, n - 1);
    }
  }

  /** Pigeonholes: n different values from 1 to n leave none out. */
  lemma {:induction false} OneMissing(a: set<int>, n: nat, v: int)
    requires 0 < v <= n && a <= UpTo(n) - {v}
    ensures |a| <= n - 1
  {
    if v == n {
      AtMost(a, n - 1);
    } else {
      OneMissing(a - {n}, n - 1, v);
    }
  }

  lemma {:induction false} VisitedUpTo(n: nat)
    ensures Visited(n) <= UpTo(MODULUS - 1)
  {
    hide States;
    if n > 0 {
      VisitedUpTo(n - 1);
      StatesArePowers(1, n - 1);
    }
  }

  lemma StateOfOne(v: int) returns (k: nat)
    requires IsSeed(v)
    ensures k < MODULUS - 1 && States(1, k) == v
  {
    var n := MODULUS - 1;
    VisitedCount(n);
    hide States, Visited;
    VisitedUpTo(n);
    if v !in Visited(n) {
      OneMissing(Visited(n), n, v);
    }
    k := VisitedAt(n, v);
  }

  // ----- The main results -----

  /** From any seed, Random first returns to its start after exactly 2^31 - 2 calls, and repeats from there on. */
  lemma FullPeriod(s: int, j: nat, k: nat)
    requires IsSeed(s) && j <= k
    ensures States(s, j) == States(s, k) <==> (k - j) % 0x7FFF_FFFE == 0
  {
    hide States;
    var i := StateOfOne(s);
    StatesAdd(1, i, j);
    StatesAdd(1, i, k);
    EqualStates(i + j, i + k);
  }

  /** In one period every value from 1 to 2^31 - 2 is returned exactly once. */
  lemma VisitsEveryValue(s: int, v: int) returns (k: nat)
    requires IsSeed(s) && IsSeed(v)
    ensures k < 0x7FFF_FFFE && States(s, k) == v
    ensures forall j: nat :: j < 0x7FFF_FFFE && States(s, j) == v ==> j == k
  {
    hide States;
    var n := MODULUS - 1;
    var i := StateOfOne(s);
    var m := StateOfOne(v);
    k := (m + n - i) % n;
    StatesAdd(1, i, k);
    if i + k <= m {
      EqualStates(i + k, m);
    } else {
      EqualStates(m, i + k);
    }
    forall j: nat | j < n && States(s, j) == v ensures j == k {
      if j != k {
        DifferentStates(s, j, k);
      }
    }
  }

  lemma TenThousandthPower()
    ensures Is(10000, 399268537)
  {
    First();
    hide Is;
    Raise(1, 48271, 2, 182605794);
    Raise(2, 182605794, 8, 1098894339);
    Raise(16, 1098894339, 5, 355190910);
    Raise(80, 355190910, 5, 306007461);
    Raise(400, 306007461, 5, 16856951);
    Raise(2000, 16856951, 5, 399268537);
  }

  /** The constant CHECK of rngs.h: the state 10000 calls after seed 1. */
  lemma CheckValue(k: nat)
    requires k == 10000
    ensures States(1, k) == 399268537
  {
    StatesArePowers(1, k);
    TenThousandthPower();
    hide Pow, States;
  }

  // ----- The streams -----

  /** What PlantSeeds puts into seed[j] when it has put x into seed[0]. */
  function Planted(x: int, j: nat): int {
    if j == 0 then x else Next(A256, Planted(x, j - 1))
  }

  lemma JumpAhead(s: int)
    requires IsSeed(s)
    ensures Next(A256, s) == States(s, JUMP)
  {
    NextSeed(s);
    StatesArePowers(s, JUMP);
    JumpMultiplier();
    var p := Pow(MULTIPLIER, JUMP);
    hide Pow, States, Next;
    assert p % MODULUS == A256;
    ReduceFactor(MODULUS, p, s);
  }

  /** Stream j starts where stream 0 is after j * 8367782 calls. */
  lemma {:induction false} PlantedIsAhead(x: int, j: nat)
    requires IsSeed(x)
    ensures Planted(x, j) == States(x, j * 8367782) && IsSeed(Planted(x, j))
  {
    hide Next, States;
    if j == 0 {
      NoCalls(x);
    } else {
      PlantedIsAhead(x, j - 1);
      JumpAhead(Planted(x, j - 1));
      NextSeed(Planted(x, j - 1));
      StatesAdd(x, (j - 1) * JUMP, JUMP);
    }
  }

  lemma NoCalls(x: int)
    ensures States(x, 0) == x
  {
  }

  /** The first 8367782 states of the 256 streams are all different. */
  lemma StreamsDoNotOverlap(x: int, i: nat, j: nat, p: nat, q: nat)
    requires IsSeed(x) && i < 256 && j < 256 && p < 8367782 && q < 8367782 && (i, p) != (j, q)
    ensures States(Planted(x, i), p) != States(Planted(x, j), q)
  {
    hide *;
    var m, n := i * 8367782, j * 8367782;
    CallsApart(i, j, p, q);
    PlantedIsAhead(x, i);
    PlantedIsAhead(x, j);
    StatesAdd(x, m, p);
    StatesAdd(x, n, q);
    DifferentStates(x, m + p, n + q);
  }

  lemma CallsApart(i: nat, j: nat, p: nat, q: nat)
    requires i < 256 && j < 256 && p < 8367782 && q < 8367782 && (i, p) != (j, q)
    ensures i * 8367782 + p != j * 8367782 + q && i * 8367782 + p < 0x7FFF_FFFE && j * 8367782 + q < 0x7FFF_FFFE
  {
  }

  lemma DifferentStates(x: int, m: nat, n: nat)
    requires IsSeed(x) && m < 0x7FFF_FFFE && n < 0x7FFF_FFFE && m != n
    ensures States(x, m) != States(x, n)
  {
    hide States;
    if m < n {
      FullPeriod(x, m, n);
      Remainder(n - m, 0x7FFF_FFFE, 0, n - m);
    } else {
      FullPeriod(x, n, m);
      Remainder(m - n, 0x7FFF_FFFE, 0, m - n);
    }
  }
}
