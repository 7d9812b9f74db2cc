/** The program both processors ship with: it counts from 5 to 0 and halts. It meets the side conditions of
    the pipeline theorem, which therefore says what the pipelined processor can write. */
module CountdownProgram {
  import opened Isa
  import opened Pipeline
  import opened PipelineTheorems

  const CODE: seq<Word> := [0x5105, 0x5201, 0xE100, 0xA103, 0x2112, 0x9083, 0x0000]

  function Program(): Memory {
    CODE + seq(0x1_0000 - |CODE|, _ => 0)
  }

  function Start(): Cpu {
    Reference(ZeroRegisters(), Program(), 0)
  }

  /** Stays true: the pc never leaves the program. */
  ghost predicate InProgram(s: Cpu) {
    s.mem == Program() && s.reg[0] == 0 && (s.halt || s.reg[PC] < |CODE|)
  }

  lemma WordsOfProgram(s: Cpu)
    requires InProgram(s) && !s.halt
    ensures Fetched(s) == CODE[s.reg[PC]] && OperandsOk(Fetched(s)) && Op(Fetched(s)) != 4
  {
  }

  /** What the word at pc does, once the program counter has moved on. */
  function Effect(pc: nat, t: Cpu): Cpu
    requires pc < |CODE|
  {
    match pc
    case 0 => t.(reg := t.reg[1 := LoadLow(t.reg[1], 5)])
    case 1 => t.(reg := t.reg[2 := LoadLow(t.reg[2], 1)])
    case 2 => t.(out := t.out + [t.reg[1]])
    case 3 => if t.reg[1] == 0 then t.(reg := t.reg[PC := 6]) else t
    case 4 => t.(reg := t.reg[1 := Minus(t.reg[1], t.reg[2])])
    case 5 => t.(reg := t.reg[PC := 2])
    case _ => t.(halt := true)
  }

  /** The fields of the words that load, subtract and write. */
  lemma FieldsOfStraightWords(pc: nat)
    requires pc in {0, 1, 2, 4}
    ensures var ir := CODE[pc];
            && Op(ir) == (if pc < 2 then 5 else if pc == 2 then 14 else 2)
            && R1(ir) == (if pc == 1 then 2 else 1) && (pc == 4 ==> R2(ir) == 1 && R3(ir) == 2)
            && (pc < 2 ==> Imm(ir) == if pc == 0 then 5 else 1)
  {
  }

  /** The fields of the words that branch and halt. */
  lemma FieldsOfControlWords(pc: nat)
    requires pc in {3, 5, 6}
    ensures var ir := CODE[pc];
            && Op(ir) == (if pc == 3 then 10 else if pc == 5 then 9 else 0)
            && R1(ir) == (if pc == 3 then 1 else 0)
            && (pc == 3 ==> SignMagnitude(Imm(ir)) == 3) && (pc == 5 ==> SignMagnitude(Imm(ir)) == -3)
  {
  }

  lemma EffectOfStraightWord(pc: nat, t: Cpu)
    requires pc in {0, 1, 2, 4}
    ensures Execute(CODE[pc], t) == Effect(pc, t)
  {
    FieldsOfStraightWords(pc);
    hide LoadLow, LoadHigh, Minus, Plus, Op, R1, R2, R3, Imm, SignMagnitude;
  }

  lemma EffectOfControlWord(pc: nat, t: Cpu)
    requires pc in {3, 5, 6} && t.reg[PC] == pc + 1 && t.reg[0] == 0
    ensures Execute(CODE[pc], t) == Effect(pc, t)
  {
    FieldsOfControlWords(pc);
    hide LoadLow, LoadHigh, Minus, Op, R1, R2, R3, Imm, SignMagnitude;
  }

  lemma EffectOfWord(pc: nat, t: Cpu)
    requires pc < |CODE| && t.reg[PC] == pc + 1 && t.reg[0] == 0
    ensures Execute(CODE[pc], t) == Effect(pc, t)
  {
    hide Execute, Effect;
    if pc in {0, 1, 2, 4} {
      EffectOfStraightWord(pc, t);
    } else {
      assert pc in {3, 5, 6};
      EffectOfControlWord(pc, t);
    }
  }

  function ProgramStep(s: Cpu): Cpu
    requires s.reg[PC] < |CODE|
  {
    Effect(s.reg[PC], s.(reg := s.reg[PC := s.reg[PC] + 1]))
  }

  lemma EffectStays(pc: nat, t: Cpu)
    requires pc < |CODE| && t.reg[PC] == pc + 1 && t.reg[0] == 0
    ensures var u := Effect(pc, t); u.mem == t.mem && u.reg[0] == 0 && (u.halt || u.reg[PC] < |CODE|)
  {
    hide LoadLow, Minus;
  }

  lemma NextPlus(pc: nat)
    requires pc < |CODE|
    ensures Plus(pc, 1) == pc + 1
  {
  }

  lemma ProgramSteps(s: Cpu)
    requires InProgram(s) && !s.halt
    ensures Step(s) == ProgramStep(s) && InProgram(Step(s))
  {
    WordsOfProgram(s);
    assert Fetched(s) == CODE[s.reg[PC]];
    hide Program, Execute, Effect, OperandsOk, Fetched, Op, Plus;
    assert Plus(s.reg[PC], 1) == s.reg[PC] + 1 by { NextPlus(s.reg[PC]); }
    var pc := s.reg[PC];
    var t := s.(reg := s.reg[PC := pc + 1]);
    EffectOfWord(pc, t);
    EffectStays(pc, t);
  }

  lemma {:induction false} StaysInProgram(k: nat)
    ensures InProgram(After(Start(), k))
  {
    if k > 0 {
      StaysInProgram(k - 1);
      var s := After(Start(), k - 1);
      assert After(Start(), k) == Step(s);
      if !s.halt {
        ProgramSteps(s);
      }
    }
  }

  lemma ProgramIsTame()
    ensures Tame(Start())
  {
    var c := Start();
    forall k: nat ensures !After(c, k).halt ==> OperandsOk(IrAt(c, k)) && Op(IrAt(c, k)) != 4 {
      StaysInProgram(k);
      if !After(c, k).halt {
        WordsOfProgram(After(c, k));
      }
    }
    forall k: nat, j: nat | k < j && StraightLine(c, k, j) && Op(IrAt(c, k)) == 4
      ensures After(c, k).mem[PcAt(c, j)] == After(c, k + 1).mem[PcAt(c, j)]
    {
      assert After(c, k).halt;
      assert After(c, k + 1) == Step(After(c, k));
    }
  }

  function CountDown(n: nat): seq<Word>
    requires n < 0x1_0000
  {
    if n == 0 then [0] else [n] + CountDown(n - 1)
  }

  /** From address 2 with n in r1: n passes round the loop, then the last output and the halt. */
  lemma {:induction false} CountsDown(s: Cpu, n: nat)
    requires InProgram(s) && !s.halt && s.reg[PC] == 2 && s.reg[2] == 1 && s.reg[1] == n
    ensures var t := After(s, 4 * n + 3); t.halt && t.out == s.out + CountDown(n)
    decreases n
  {
    hide Step, InProgram, Program, LoadLow;
    var s1 := Step(s);
    ProgramSteps(s);
    var s2 := Step(s1);
    ProgramSteps(s1);
    var s3 := Step(s2);
    ProgramSteps(s2);
    assert After(s, 3) == s3 by {
      assert After(s, 0) == s && After(s, 1) == s1 && After(s, 2) == s2;
    }
    hide After;
    if n > 0 {
      var s4 := Step(s3);
      ProgramSteps(s3);
      assert s4 == s.(reg := s.reg[1 := n - 1], out := s.out + [n]);
      CountsDown(s4, n - 1);
      assert After(s, 4) == s4 by { AfterStep(s, 3); }
      AfterAfter(s, 4, 4 * (n - 1) + 3);
      assert s.out + [n] + CountDown(n - 1) == s.out + CountDown(n);
    }
  }

  // The two loads that precede the loop.

  lemma FirstEffect(t: Cpu)
    requires t.reg[1] == 0
    ensures Effect(0, t) == t.(reg := t.reg[1 := 5])
  {
    LoadOfZero(t.reg[1], 5);
    hide LoadLow, Minus;
  }

  lemma SecondEffect(t: Cpu)
    requires t.reg[2] == 0
    ensures Effect(1, t) == t.(reg := t.reg[2 := 1])
  {
    LoadOfZero(t.reg[2], 1);
    hide LoadLow, Minus;
  }

  lemma FirstLoad(s: Cpu)
    requires InProgram(s) && !s.halt && s.reg[PC] == 0 && s.reg[1] == 0
    ensures InProgram(Step(s)) && Step(s) == s.(reg := s.reg[PC := 1][1 := 5])
  {
    ProgramSteps(s);
    hide Step, InProgram, Program, Effect;
    FirstEffect(s.(reg := s.reg[PC := 1]));
  }

  lemma SecondLoad(s: Cpu)
    requires InProgram(s) && !s.halt && s.reg[PC] == 1 && s.reg[2] == 0
    ensures InProgram(Step(s)) && Step(s) == s.(reg := s.reg[PC := 2][2 := 1])
  {
    ProgramSteps(s);
    hide Step, InProgram, Program, Effect;
    SecondEffect(s.(reg := s.reg[PC := 2]));
  }

  lemma ReachesLoop(s: Cpu, two: nat)
    requires s == Start() && two == 2
    ensures var t := After(s, two);
            InProgram(t) && !t.halt && t.reg[PC] == 2 && t.reg[2] == 1 && t.reg[1] == 5 && t.out == []
  {
    assert InProgram(s) && s.reg[PC] == s.reg[1] == s.reg[2] == 0 && s.out == [] && !s.halt;
    hide Step, InProgram, Program, Start, After, Reference;
    FirstLoad(s);
    SecondLoad(Step(s));
    AfterStep(s, two - 1);
    AfterStep(s, two - 2);
    AfterNone(s, two - 2);
  }

  /** The sequential processor writes 5, 4, 3, 2, 1, 0 and halts after 25 instructions. */
  lemma ProgramCounts(k: nat)
    requires k == 25
    ensures After(Start(), k).halt && After(Start(), k).out == [5, 4, 3, 2, 1, 0]
  {
    hide After, Step, InProgram, Program, Start;
    var s := Start();
    ReachesLoop(s, k - 23);
    CountsDown(After(s, k - 23), 5);
    AfterAfter(s, k - 23, 23);
    assert CountDown(5) == [5, 4, 3, 2, 1, 0];
  }

  /** So the pipelined processor writes a prefix of 5, 4, 3, 2, 1, 0 in every interleaving, and can always
      go on to write it all. */
  lemma PipelinedProgramCounts(schedule: seq<Agent>, depth: PipeName -> nat)
    requires DepthsPositive(depth)
    ensures Output(StateAfter(ZeroRegisters(), Program(), 0, schedule, depth)) <= [5, 4, 3, 2, 1, 0]
    ensures exists more: seq<Agent> ::
              Output(StateAfter(ZeroRegisters(), Program(), 0, schedule + more, depth)) == [5, 4, 3, 2, 1, 0]
  {
    var regs: RegFile := ZeroRegisters();
    ProgramIsTame();
    assert TameWithin(Start(), Window(depth));
    var k: nat :| k == 25;
    ProgramCounts(k);
    OutputIsPrefix(regs, Program(), 0, schedule, depth, k);
    OutputCanBeCompleted(regs, Program(), 0, schedule, depth, k);
    hide Step, After, StateAfter, Program, TameWithin;
    var more :| After(Start(), k).out <= Output(StateAfter(regs, Program(), 0, schedule + more, depth));
    OutputIsPrefix(regs, Program(), 0, schedule + more, depth, k);
  }
}
