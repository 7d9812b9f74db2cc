/** The bit-reversal permutation, and the reversed counting that fft.c does with its index j. */
module BitReversal {
  import opened NumberTheory

  /** The k low bits of p, in the opposite order. */
  function Rev(k: nat, p: nat): (r: nat)
    requires p < Two(k)
    ensures r < Two(k)
  {
    if k == 0 then 0
    else if p < Two(k - 1) then 2 * Rev(k - 1, p)
    else 2 * Rev(k - 1, p - Two(k - 1)) + 1
  }

  lemma RevTop(k: nat, p: nat)
    requires k > 0 && p < Two(k - 1)
    ensures p < Two(k) && Rev(k, p) == 2 * Rev(k - 1, p)
    ensures p + Two(k - 1) < Two(k) && Rev(k, p + Two(k - 1)) == 2 * Rev(k - 1, p) + 1
  {
    Doubled(k);
  }

  lemma LowBitTimes(p: nat, h: int)
    ensures p % 2 * h == if p % 2 == 1 then h else 0
  {
  }

  lemma HalfOfHigh(q: nat, h: nat)
    ensures (q + 2 * h) / 2 == q / 2 + h && (q + 2 * h) % 2 == q % 2
  {
  }

  lemma RevLowBitStep(k: nat, q: nat)
    requires k > 1 && q < Two(k - 1) && q / 2 < Two(k - 2)
    requires Rev(k - 1, q) == q % 2 * Two(k - 2) + Rev(k - 2, q / 2)
    ensures q < Two(k) && q / 2 < Two(k - 1) && Rev(k, q) == q % 2 * Two(k - 1) + Rev(k - 1, q / 2)
    ensures var p := q + Two(k - 1);
      p < Two(k) && p / 2 < Two(k - 1) && Rev(k, p) == p % 2 * Two(k - 1) + Rev(k - 1, p / 2)
  {
    Doubled(k - 1);
    hide Rev, Two;
    HalfOfHigh(q, Two(k - 2));
    RevTop(k, q);
    RevTop(k - 1, q / 2);
    TwiceLowBit(q, Two(k - 2), Rev(k - 2, q / 2));
  }

  lemma TwiceLowBit(q: nat, h: nat, r: int)
    ensures 2 * (q % 2 * h + r) == q % 2 * (2 * h) + 2 * r
  {
  }

  /** Rev with the low bit first. */
  lemma {:induction false} RevLowBit(k: nat, p: nat)
    requires k > 0 && p < Two(k)
    ensures p / 2 < Two(k - 1) && Rev(k, p) == p % 2 * Two(k - 1) + Rev(k - 1, p / 2)
  {
    if k > 1 {
      hide Rev, Two;
      Doubled(k);
      var q := if p < Two(k - 1) then p else p - Two(k - 1);
      RevLowBit(k - 1, q);
      RevLowBitStep(k, q);
    }
  }

  /** Bit i of p. */
  function Bit(p: nat, i: nat): nat {
    if i == 0 then p % 2 else Bit(p / 2, i - 1)
  }

  /** A bit added at place k is bit k, and the lower ones stay. */
  lemma {:induction false} BitAdded(k: nat, q: nat, b: nat, i: nat)
    requires q < Two(k) && b <= 1 && i <= k
    ensures Bit(q + b * Two(k), i) == if i == k then b else Bit(q, i)
  {
    if k > 0 {
      Doubled(k);
      HalfOfHigh(q, b * Two(k - 1));
      assert b * Two(k) == 2 * (b * Two(k - 1));
      hide Two;
      if i > 0 {
        BitAdded(k - 1, q / 2, b, i - 1);
      }
    } else {
      assert Two(0) == 1;
    }
  }

  /** Rev turns the k bits round: bit i is the old bit k - 1 - i. */
  lemma {:induction false} BitsReversed(k: nat, p: nat, i: nat)
    requires p < Two(k) && i < k
    ensures Bit(Rev(k, p), i) == Bit(p, k - 1 - i)
  {
    Doubled(k);
    var b := if p < Two(k - 1) then 0 else 1;
    var q := p - b * Two(k - 1);
    RevTop(k, q);
    BitAdded(k - 1, q, b, k - 1 - i);
    assert Rev(k, p) == 2 * Rev(k - 1, q) + b;
    hide Rev, Two;
    if i > 0 {
      BitsReversed(k - 1, q, i - 1);
    }
  }

  lemma HalfAndBit(r: nat, bit: nat, h: int)
    requires bit <= 1
    ensures (2 * r + bit) / 2 == r && (2 * r + bit) % 2 * h == if bit == 1 then h else 0
  {
  }

  lemma {:induction false} RevTwice(k: nat, p: nat)
    requires p < Two(k)
    ensures Rev(k, Rev(k, p)) == p
  {
    if k > 0 {
      hide Rev, Two;
      Doubled(k);
      var q := if p < Two(k - 1) then p else p - Two(k - 1);
      RevTop(k, q);
      HalfAndBit(Rev(k - 1, q), if p < Two(k - 1) then 0 else 1, Two(k - 1));
      RevLowBit(k, Rev(k, p));
      RevTwice(k - 1, q);
    }
  }

  /** Two to the k is even, so its half can be taken from the index that runs in steps of two. */
  lemma TwoIsEven(k: nat)
    requires k > 0
    ensures Two(k) % 2 == 0 && Two(k) / 2 == Two(k - 1)
  {
  }

  /** Counting up in the reversed number: the carry passes through the high bits that are set. */
  method NextReversed(ghost k: nat, nn: nat, ghost p: nat, j: nat) returns (next: nat)
    requires nn == Two(k) && p < nn && j == 2 * Rev(k, p) + 1
    ensures p + 1 < nn ==> next == 2 * Rev(k, p + 1) + 1
  {
    next := j;
    var m := nn;
    ghost var t, q := k, p;
    while m >= 2 && next > m
      invariant m == Two(t) && q < m && next == 2 * Rev(t, q) + 1
      invariant p + 1 < nn <==> q + 1 < m
      invariant p + 1 < nn ==> Rev(k, p + 1) == Rev(t, q + 1)
      decreases m
    {
      Carry(t, q);
      TwoIsEven(t);
      next := next - m;
      m := m / 2;
      t, q := t - 1, q / 2;
    }
    if t > 0 {
      NoCarry(t, q);
    }
    next := next + m;
  }

  lemma Carry(t: nat, q: nat)
    requires t > 0 && q < Two(t) && 2 * Rev(t, q) + 1 > Two(t)
    ensures q % 2 == 1 && q / 2 < Two(t - 1) && Rev(t, q) - Two(t - 1) == Rev(t - 1, q / 2)
    ensures q + 1 < Two(t) <==> q / 2 + 1 < Two(t - 1)
    ensures q + 1 < Two(t) ==> Rev(t, q + 1) == Rev(t - 1, q / 2 + 1)
  {
    hide Rev, Two;
    Doubled(t);
    RevLowBit(t, q);
    LowBitTimes(q, Two(t - 1));
    if q + 1 < Two(t) {
      RevLowBit(t, q + 1);
      LowBitTimes(q + 1, Two(t - 1));
    }
  }

  lemma NoCarry(t: nat, q: nat)
    requires t > 0 && q < Two(t) && 2 * Rev(t, q) + 1 <= Two(t)
    ensures q + 1 < Two(t) && 2 * Rev(t, q) + 1 + Two(t) == 2 * Rev(t, q + 1) + 1
  {
    hide Rev, Two;
    Doubled(t);
    RevLowBit(t, q);
    LowBitTimes(q, Two(t - 1));
    RevLowBit(t, q + 1);
    LowBitTimes(q + 1, Two(t - 1));
  }

  // ----- The permuted sequence -----

  function Reversed<T>(k: nat, x: seq<T>): (r: seq<T>)
    requires |x| == Two(k)
    ensures |r| == |x|
  {
    seq(Two(k), p requires 0 <= p < Two(k) => x[Rev(k, p)])
  }

  lemma ReversedTwice<T>(k: nat, x: seq<T>)
    requires |x| == Two(k)
    ensures Reversed(k, Reversed(k, x)) == x
  {
    forall p | 0 <= p < |x| ensures Reversed(k, Reversed(k, x))[p] == x[p] {
      RevTwice(k, p);
    }
  }

  function Evens<T>(x: seq<T>): (r: seq<T>)
    ensures |r| == (|x| + 1) / 2
  {
    seq((|x| + 1) / 2, i requires 0 <= i < (|x| + 1) / 2 => x[2 * i])
  }

  function Odds<T>(x: seq<T>): (r: seq<T>)
    ensures |r| == |x| / 2
  {
    seq(|x| / 2, i requires 0 <= i < |x| / 2 => x[2 * i + 1])
  }

  /** Bit reversal puts the entries at even places first, and permutes both halves in the same way. */
  lemma ReversedHalves<T>(k: nat, x: seq<T>)
    requires k > 0 && |x| == Two(k)
    ensures |Evens(x)| == |Odds(x)| == Two(k - 1)
    ensures Reversed(k, x) == Reversed(k - 1, Evens(x)) + Reversed(k - 1, Odds(x))
  {
    Doubled(k);
    var h := Two(k - 1);
    forall p | 0 <= p < 2 * h
      ensures Reversed(k, x)[p] == (Reversed(k - 1, Evens(x)) + Reversed(k - 1, Odds(x)))[p]
    {
      if p < h {
        assert Rev(k, p) == 2 * Rev(k - 1, p);
      } else {
        assert Rev(k, p) == 2 * Rev(k - 1, p - h) + 1;
      }
      hide Rev, Two;
    }
  }
}
