/** The 16-bit instruction set shared by the two processor examples, and the one-instruction-at-a-time
    machine of simple_processor, which is the specification of the pipelined one. */
module Isa {

  /** uint16_t. */
  type Word = x: int | 0 <= x < 0x1_0000

  /** Conversion to uint16_t: also right for negative arguments, since % is never negative here. */
  function Wrap(x: int): Word {
    x % 0x1_0000
  }

  function Plus(x: int, y: int): Word { Wrap(x + y) }
  function Minus(x: int, y: int): Word { Wrap(x - y) }

  /** The whole 16-bit address space. */
  type Memory = m: seq<Word> | |m| == 0x1_0000 witness seq(0x1_0000, _ => 0)
  type RegFile = r: seq<Word> | |r| == 16 witness seq(16, _ => 0)

  const PC := 15

  function ZeroRegisters(): RegFile { seq(16, _ => 0) }

  // The instruction fields.
  function Op(ir: Word): Word { ir / 0x1000 }
  function R1(ir: Word): Word { ir / 0x100 % 16 }
  function R2(ir: Word): Word { ir / 0x10 % 16 }
  function R3(ir: Word): Word { ir % 16 }
  function Imm(ir: Word): Word { ir % 0x100 }

  /** The branch offset is a sign-magnitude byte: 0x80 means 0, 0x83 means -3. */
  function SignMagnitude(imm: Word): int {
    if imm > 127 then 128 - imm else imm
  }

  /** (w & 0xFF00) | imm and (w & 0x00FF) | (imm << 8), for an 8-bit imm. */
  function LoadLow(w: Word, imm: Word): Word { Wrap(w / 0x100 * 0x100 + imm % 0x100) }
  function LoadHigh(w: Word, imm: Word): Word { Wrap(imm * 0x100 + w % 0x100) }

  lemma LoadOfZero(w: Word, imm: Word)
    requires w == 0 && imm < 0x100
    ensures LoadLow(w, imm) == imm
  {
  }

  // ----- The sequential machine -----

  /** The globals of simple_processor, with everything written to out_port so far. */
  datatype Cpu = Cpu(reg: RegFile, mem: Memory, halt: bool, out: seq<Word>)

  function Fetched(s: Cpu): Word {
    s.mem[s.reg[PC]]
  }

  /** The switch of _execute_, entered after the fetch has moved the program counter on. */
  function Execute(ir: Word, s: Cpu): Cpu {
    var r1, r2, r3, imm, offs := R1(ir), R2(ir), R3(ir), Imm(ir), SignMagnitude(Imm(ir)) - 1;
    match Op(ir)
    case 0 => s.(halt := true)
    case 1 => s.(reg := s.reg[r1 := Plus(s.reg[r2], s.reg[r3])])
    case 2 => s.(reg := s.reg[r1 := Minus(s.reg[r2], s.reg[r3])])
    case 3 => s.(reg := s.reg[r1 := s.mem[Plus(s.reg[r2], s.reg[r3])]])
    case 4 => s.(mem := s.mem[Plus(s.reg[r2], s.reg[r3]) := s.reg[r1]])
    case 5 => s.(reg := s.reg[r1 := LoadLow(s.reg[r1], imm)])
    case 6 => s.(reg := s.reg[r1 := LoadHigh(s.reg[r1], imm)])
    case 7 => s.(reg := s.reg[r1 := s.reg[r2]])
    case 8 => s.(reg := s.reg[PC := s.mem[s.reg[PC]]])
    case 9 => s.(reg := s.reg[PC := Plus(s.reg[PC], s.reg[r1] + offs)])
    case 10 => if s.reg[r1] == 0 then s.(reg := s.reg[PC := Plus(s.reg[PC], offs)]) else s
    case 14 => s.(out := s.out + [s.reg[r1]])
    case _ => s
  }

  /** One pass of the while loop of run(); a halted machine stays as it is. */
  function Step(s: Cpu): Cpu {
    if s.halt then s
    else Execute(Fetched(s), s.(reg := s.reg[PC := Plus(s.reg[PC], 1)]))
  }

  /** The machine after k instructions. */
  function After(s: Cpu, k: nat): Cpu {
    if k == 0 then s else Step(After(s, k - 1))
  }

  // The streams of program counters and instruction words of the sequential run.
  function PcAt(s: Cpu, k: nat): Word { After(s, k).reg[PC] }
  function IrAt(s: Cpu, k: nat): Word { Fetched(After(s, k)) }

  /** Instructions after which the next one is simply the next word: everything but halt, jmp, br, brz. */
  predicate Straight(ir: Word) {
    Op(ir) != 0 && (Op(ir) < 8 || Op(ir) > 10)
  }

  // ----- The programs on which both machines are meant to agree -----

  /** r0 is never a destination and r15 never an operand. */
  predicate OperandsOk(ir: Word) {
    var op := Op(ir);
    && (op in {1, 2, 3, 5, 6, 7} ==> R1(ir) != 0)
    && (op in {1, 2, 3, 4, 5, 6, 7, 9, 10, 14} ==> R1(ir) != PC)
    && (op in {1, 2, 3, 4, 7} ==> R2(ir) != PC)
    && (op in {1, 2, 3, 4} ==> R3(ir) != PC)
  }

  ghost predicate StraightLine(s: Cpu, lo: nat, hi: nat) {
    forall i: nat :: lo <= i < hi ==> Straight(IrAt(s, i))
  }

  /** No store changes an instruction word that is executed later in the same straight-line stretch:
      such a word may already have been fetched. A control instruction between the two makes it safe. */
  ghost predicate StoresSafe(s: Cpu) {
    forall k: nat, j: nat ::
      k < j && StraightLine(s, k, j) && Op(IrAt(s, k)) == 4
      ==> After(s, k).mem[PcAt(s, j)] == After(s, k + 1).mem[PcAt(s, j)]
  }

  /** The same for stores up to w instructions earlier: fetch never gets further ahead than that. */
  ghost predicate StoresSafeWithin(s: Cpu, w: nat) {
    forall k: nat, j: nat ::
      k < j <= k + w && StraightLine(s, k, j) && Op(IrAt(s, k)) == 4
      ==> After(s, k).mem[PcAt(s, j)] == After(s, k + 1).mem[PcAt(s, j)]
  }

  ghost predicate Conforming(s: Cpu) {
    && !s.halt && s.reg[0] == 0 && s.out == []
    && forall k: nat :: !After(s, k).halt ==> OperandsOk(IrAt(s, k))
  }

  ghost predicate Tame(s: Cpu) {
    Conforming(s) && StoresSafe(s)
  }

  ghost predicate TameWithin(s: Cpu, w: nat) {
    Conforming(s) && StoresSafeWithin(s, w)
  }

  // ----- Facts about the sequential run -----

  /** r0 stays 0 throughout. */
  lemma {:induction false} ZeroStaysZero(s: Cpu, k: nat)
    requires Conforming(s)
    ensures After(s, k).reg[0] == 0
  {
    if k > 0 {
      ZeroStaysZero(s, k - 1);
      assert !After(s, k - 1).halt ==> OperandsOk(IrAt(s, k - 1));
    }
  }

  lemma {:induction false} AfterAfter(s: Cpu, a: nat, b: nat)
    ensures After(After(s, a), b) == After(s, a + b)
  {
    if b > 0 {
      AfterAfter(s, a, b - 1);
    }
  }

  lemma AfterStep(s: Cpu, k: nat)
    ensures After(s, k + 1) == Step(After(s, k))
  {
  }

  lemma AfterNone(s: Cpu, k: nat)
    ensures k == 0 ==> After(s, k) == s
  {
  }

  /** Output only grows. */
  lemma {:induction false} OutputGrows(s: Cpu, k: nat, j: nat)
    requires k <= j
    ensures After(s, k).out <= After(s, j).out
    decreases j
  {
    if k < j {
      OutputGrows(s, k, j - 1);
    }
  }

  lemma {:induction false} HaltedStays(s: Cpu, k: nat, j: nat)
    requires k <= j && After(s, k).halt
    ensures After(s, j) == After(s, k)
    decreases j
  {
    if k < j {
      HaltedStays(s, k, j - 1);
    }
  }

  /** A straight instruction neither halts nor jumps. */
  lemma StraightAdvances(s: Cpu, k: nat)
    requires Conforming(s) && !After(s, k).halt && Straight(IrAt(s, k))
    ensures PcAt(s, k + 1) == Plus(PcAt(s, k), 1)
    ensures !After(s, k + 1).halt
  {
    assert OperandsOk(IrAt(s, k));
    assert After(s, k + 1) == Step(After(s, k));
  }

  lemma {:induction false} StraightLineRuns(s: Cpu, lo: nat, hi: nat)
    requires Conforming(s) && lo <= hi && !After(s, lo).halt && StraightLine(s, lo, hi)
    ensures !After(s, hi).halt
    decreases hi
  {
    hide Step, Execute, OperandsOk;
    if lo < hi {
      assert StraightLine(s, lo, hi - 1);
      StraightLineRuns(s, lo, hi - 1);
      assert Straight(IrAt(s, hi - 1));
      StraightAdvances(s, hi - 1);
    }
  }

  /** The word at the pc of instruction j is already final when the straight-line stretch leading to j begins. */
  lemma {:induction false} PrefetchStable(s: Cpu, k: nat, j: nat, w: nat)
    requires TameWithin(s, w) && k <= j <= k + w && !After(s, k).halt && StraightLine(s, k, j)
    ensures After(s, k).mem[PcAt(s, j)] == IrAt(s, j)
    decreases j - k
  {
    if k < j {
      assert Straight(IrAt(s, k));
      StraightAdvances(s, k);
      assert StraightLine(s, k + 1, j);
      PrefetchStable(s, k + 1, j, w);
      assert After(s, k + 1) == Step(After(s, k));
      if Op(IrAt(s, k)) != 4 {
        assert After(s, k + 1).mem == After(s, k).mem;
      }
    }
  }
}
