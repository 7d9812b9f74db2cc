/** The generator of rngs.c: its 256 streams, and the functions that use them. */
module Rngs {
  import opened NumberTheory
  import opened Divider
  import opened Lehmer

  const DEFAULT := 123456789

  /** int32_t. */
  type Int32 = x: int | IsInt32(x)

  class Generator {
    const seed: array<Int32>
    var stream: int
    var initialized: bool

    ghost predicate Valid()
      reads this
    {
      seed.Length == STREAMS && -STREAMS < stream < STREAMS
    }

    /** A stream is selected; a negative index selects none, and the array may not be used with it. */
    ghost predicate Selected()
      reads this
    {
      Valid() && stream >= 0
    }

    /** Every stream holds what PlantSeeds(x) puts there. */
    ghost predicate PlantedFrom(x: int)
      reads this, seed
      requires Valid()
    {
      forall j :: 0 <= j < STREAMS ==> seed[j] == Planted(SRem(x, MODULUS), j)
    }

    /** The global variables before any call. */
    constructor ()
      ensures Valid() && fresh(seed) && seed.Length == 256 && stream == 0 && !initialized
    {
      seed := new Int32[STREAMS](_ => 0);
      stream, initialized := 0, false;
    }

    method Initialize()
      requires Valid()
      modifies this, seed
      ensures Valid() && stream == 0 && !initialized
      ensures seed[..] == old(seed[..])[0 := 123456789]
    {
      stream := 0;
      initialized := false;
      seed[0] := DEFAULT;
    }

    /** The multiplication modulo MODULUS that Random and PlantSeeds share; a is MULTIPLIER or A256. */
    static method Multiply(a: int, s: Int32) returns (r: Int32)
      requires SuitsSchrage(a)
      ensures r == Next(a, s)
      ensures r % MODULUS == a * s % MODULUS && 0 < r <= MODULUS
    {
      SchrageIsExact(a, s);
      Int32IsSigned(s);
      var q, r0 := MODULUS / a, MODULUS % a;
      Int32IsSigned(q);
      hide SDiv, SRem, Two;
      var rem := Srem(32, s, q);
      var quotient := Sdiv(32, s, q);
      var product: Int32 := a * rem;
      var other: Int32 := r0 * quotient;
      var t: Int32 := product - other;
      if t > 0 {
        r := t;
      } else {
        r := t + MODULUS;
      }
    }

    /** Exact for every seed; from a seed in 1..MODULUS-1 the result is again one. */
    method Random() returns (r: Int32)
      requires Selected()
      modifies seed
      ensures r == Next(MULTIPLIER, old(seed[stream])) && seed[..] == old(seed[..])[stream := r]
      ensures r % 2147483647 == 48271 * (old(seed[stream]) as int) % 2147483647 && 0 < r <= 2147483647
      ensures r == MODULUS <==> old(seed[stream]) % MODULUS == 0
    {
      MultipliersFit();
      NextOf(MULTIPLIER, 1899818559, seed[stream]);
      hide SuitsSchrage, Next;
      r := Multiply(MULTIPLIER, seed[stream]);
      seed[stream] := r;
    }

    method PutSeed(x: Int32)
      requires Selected()
      modifies seed
      ensures seed[..] == old(seed[..])[stream := SRem(x, MODULUS)]
    {
      Int32IsSigned(x);
      Int32IsSigned(MODULUS);
      TruncatingDivision(32, x, MODULUS);
      hide SDiv, SRem, Two;
      seed[stream] := Srem(32, x, MODULUS);
    }

    method GetSeed() returns (x: Int32)
      requires Selected()
      ensures x == seed[stream]
    {
      x := seed[stream];
    }

    method SelectStream(index: Int32)
      requires Valid()
      modifies this, seed
      ensures Valid() && stream == SRem(index, STREAMS)
      ensures stream == if index >= 0 then index % 256 else -(-(index as int) % 256)
      ensures 0 <= index < 256 ==> stream == index
      ensures if old(initialized) || index % STREAMS == 0
              then initialized == old(initialized) && seed[..] == old(seed[..])
              else initialized && PlantedFrom(DEFAULT)
      decreases if initialized then 0 else 2
    {
      Int32IsSigned(index);
      Int32IsSigned(STREAMS);
      hide Two;
      stream := Srem(32, index, STREAMS);
      if !initialized && stream != 0 {
        PlantSeeds(DEFAULT);
      }
    }

    method PlantSeeds(x: Int32)
      requires Valid()
      modifies this, seed
      ensures Valid() && stream == old(stream) && initialized
      ensures PlantedFrom(x)
      decreases 1
    {
      hide Next, SRem, SuitsSchrage;
      initialized := true;
      var s := stream;
      SelectStream(0);
      PutSeed(x);
      stream := s;
      MultipliersFit();
      var j := 1;
      while j < STREAMS
        invariant 1 <= j <= STREAMS && Valid() && stream == s && initialized
        invariant forall i :: 0 <= i < j ==> seed[i] == Planted(SRem(x, MODULUS), i)
      {
        var y := Multiply(A256, seed[j - 1]);
        seed[j] := y;
        j := j + 1;
      }
    }
  }

  // ----- What a user of the library sees -----

  /** Without a seed of the user's the first number follows 123456789. */
  method FirstNumber() returns (r: Int32)
    ensures r == 48271 * 123456789 % 2147483647
  {
    hide Next, SRem, SDiv, Two;
    var g := new Generator();
    g.Initialize();
    assert g.seed[g.stream] == 123456789;
    r := g.Random();
    assert r != 2147483647;
  }

  /** After PlantSeeds(x) with a proper seed, stream j is the generator started at x and j * 8367782 calls ahead. */
  lemma StreamStart(g: Generator, x: int, j: nat, k: nat)
    requires g.Valid() && g.PlantedFrom(x) && IsSeed(x) && j < STREAMS
    ensures IsSeed(g.seed[j]) && States(g.seed[j], k) == States(x, j * 8367782 + k)
  {
    hide States, Planted;
    Remainder(x, MODULUS, 0, x);
    PlantedIsAhead(x, j);
    StatesAdd(x, j * JUMP, k);
  }

  lemma {:induction false} SeedOfZero(j: nat)
    ensures Planted(0, j + 1) == MODULUS
  {
    MultipliersFit();
    hide Next, SuitsSchrage;
    if j == 0 {
      NextOf(A256, 130394645, 0);
      assert Planted(0, 0) == 0;
    } else {
      SeedOfZero(j - 1);
      NextOf(A256, 130394645, MODULUS);
    }
  }

  /** A multiple of MODULUS is no seed: every other stream then stays at MODULUS for ever. */
  lemma MultipleOfModulusIsNoSeed(g: Generator, x: int, j: nat)
    requires g.Valid() && g.PlantedFrom(x) && IsInt32(x) && SRem(x, MODULUS) == 0 && 0 < j < STREAMS
    ensures g.seed[j] == MODULUS && Next(MULTIPLIER, g.seed[j]) == MODULUS
  {
    SeedOfZero(j - 1);
    MultipliersFit();
    NextOf(MULTIPLIER, 1899818559, MODULUS);
    hide Next, SRem, Planted;
  }

  lemma StateOrModulus(r: int)
    requires 0 < r <= MODULUS
    ensures IsInt32(r) && (r % MODULUS == 0 <==> r == MODULUS) && (IsSeed(r) <==> r != MODULUS)
  {
    if r == MODULUS {
      DropMultiple(MODULUS, 1, 0);
    } else {
      Remainder(r, MODULUS, 0, r);
    }
  }

  /** The step of PlantSeeds keeps proper seeds apart from multiples of MODULUS. */
  lemma StepKeepsApart(s: int)
    requires IsInt32(s)
    ensures 0 < Next(A256, s) <= MODULUS && (Next(A256, s) == MODULUS <==> s % MODULUS == 0)
  {
    MultipliersFit();
    hide Next, SuitsSchrage, SchrageDifference;
    NextOf(A256, 130394645, s);
    SchrageIsExact(A256, s);
  }

  lemma {:induction false} PlantedIsSeed(x: int, j: nat)
    requires IsInt32(x)
    ensures IsInt32(Planted(x, j)) && (Planted(x, j) % MODULUS == 0 <==> x % MODULUS == 0)
    ensures j > 0 ==> (if x % MODULUS == 0 then Planted(x, j) == MODULUS else IsSeed(Planted(x, j)))
  {
    hide Next, IsSeed;
    if j > 0 {
      PlantedIsSeed(x, j - 1);
      StepKeepsApart(Planted(x, j - 1));
      StateOrModulus(Planted(x, j));
    }
  }

  lemma SRemIsMultiple(x: int)
    requires IsInt32(x)
    ensures IsInt32(SRem(x, MODULUS)) && (SRem(x, MODULUS) % MODULUS == 0 <==> x % MODULUS == 0)
  {
    Int32IsSigned(x);
    Int32IsSigned(MODULUS);
    TruncatingDivision(32, x, MODULUS);
    DropMultiple(MODULUS, SDiv(32, x, MODULUS), SRem(x, MODULUS));
    hide SDiv, SRem, Two;
  }

  /** The exact condition: PlantSeeds(x) gives every other stream a proper seed, whatever the sign of x, unless x is a
      multiple of MODULUS; then it gives them MODULUS, at which they stay. */
  lemma PlantedIffNoMultiple(g: Generator, x: int, j: nat)
    requires g.Valid() && g.PlantedFrom(x) && IsInt32(x) && 0 < j < STREAMS
    ensures IsSeed(g.seed[j]) <==> x % MODULUS != 0
    ensures g.seed[j] == MODULUS <==> x % MODULUS == 0
  {
    SRemIsMultiple(x);
    PlantedIsSeed(SRem(x, MODULUS), j);
    hide Planted, SRem;
  }
}
