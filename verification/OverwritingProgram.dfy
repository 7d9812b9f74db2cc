/** A program of three words, the second of which overwrites the third. It keeps the register conventions, the
    sequential processor halts on it without any output, and yet the pipelined processor can write a word, whatever
    the depths of its pipes. */
module OverwritingProgram {
  import opened Isa
  import opened Pipeline
  import opened PipelineProof
  import opened PipelineTheorems
  import opened PrefetchTheorems

  const LOAD: Word := 0x5202     // r2 := 2
  const STORE: Word := 0x4120    // store r1, which is 0, at address r2 + r0, which is 2
  const OUT: Word := 0xE100      // write r1 to out_port
  const CODE: seq<Word> := [LOAD, STORE, OUT]

  function Program(): Memory {
    CODE + seq(0x1_0000 - |CODE|, _ => 0)
  }

  function Start(): Cpu {
    Reference(ZeroRegisters(), Program(), 0)
  }

  // The sequential machine after each of its three instructions.
  function Registers(): RegFile { ZeroRegisters()[2 := 2] }
  function AfterLoad(): Cpu { Start().(reg := Registers()[PC := 1]) }
  function AfterStore(): Cpu { Start().(reg := Registers()[PC := 2], mem := Program()[2 := 0]) }
  function AfterHalt(): Cpu { AfterStore().(reg := Registers()[PC := 3], halt := true) }

  lemma LoadFields()
    ensures Op(LOAD) == 5 && R1(LOAD) == 2 && Imm(LOAD) == 2 && OperandsOk(LOAD)
  {
  }

  lemma StoreFields()
    ensures Op(STORE) == 4 && R1(STORE) == 1 && R2(STORE) == 2 && R3(STORE) == 0 && OperandsOk(STORE)
  {
  }

  lemma OutFields()
    ensures Op(OUT) == 14 && R1(OUT) == 1 && Op(0) == 0 && OperandsOk(0)
  {
  }

  lemma LoadStep()
    ensures Fetched(Start()) == LOAD && Step(Start()) == AfterLoad() && !Start().halt
  {
    LoadFields();
    var c := Start();
    assert c.mem[0] == LOAD && c.reg[2] == 0;
    LoadOfZero(c.reg[2], 2);
    assert c.reg[PC := 1][2 := 2] == Registers()[PC := 1];
    hide Program, Op, R1, R2, R3, OperandsOk, Imm, SignMagnitude, LoadLow, LoadHigh;
  }

  lemma StoreStep()
    ensures Fetched(AfterLoad()) == STORE && Step(AfterLoad()) == AfterStore() && !AfterLoad().halt
  {
    StoreFields();
    var c := AfterLoad();
    assert c.mem[1] == STORE && c.mem == Program();
    assert Registers()[PC := 1][PC := 2] == Registers()[PC := 2];
    hide Program, Op, R1, R2, R3, OperandsOk, Imm, SignMagnitude, LoadLow, LoadHigh;
  }

  lemma HaltStep()
    ensures Fetched(AfterStore()) == 0 && Step(AfterStore()) == AfterHalt() && !AfterStore().halt
  {
    OutFields();
    assert Registers()[PC := 2][PC := 3] == Registers()[PC := 3];
    hide Program, Op, R1, R2, R3, OperandsOk, Imm, SignMagnitude, LoadLow, LoadHigh;
  }

  lemma SequentialRun(k: nat)
    ensures k == 0 ==> After(Start(), k) == Start() && IrAt(Start(), k) == LOAD
    ensures k == 1 ==> After(Start(), k) == AfterLoad() && IrAt(Start(), k) == STORE
    ensures k == 2 ==> After(Start(), k) == AfterStore() && IrAt(Start(), k) == 0
    ensures k >= 3 ==> After(Start(), k) == AfterHalt()
  {
    LoadStep();
    StoreStep();
    HaltStep();
    assert Step(AfterHalt()) == AfterHalt();
    hide Step, Program, ZeroRegisters, After, Fetched;
    var c := Start();
    AfterNone(c, 0);
    if k > 0 {
      SequentialRun(k - 1);
      AfterStep(c, k - 1);
    }
  }

  /** The program meets all side conditions but the one on stores. It stays in the first words, and writes nothing. */
  lemma SequentialIsSilent(k: nat)
    ensures Conforming(Start()) && After(Start(), k).out == [] && PcAt(Start(), k) <= |CODE|
  {
    LoadFields();
    StoreFields();
    OutFields();
    var c := Start();
    assert c.reg[0] == 0;
    hide Step, After, Program, ZeroRegisters, IrAt, OperandsOk;
    forall i: nat ensures After(c, i).out == [] && (!After(c, i).halt ==> OperandsOk(IrAt(c, i))) {
      SequentialRun(i);
    }
    SequentialRun(k);
  }

  /** The second instruction changes the word of the third. */
  lemma StoresAreNotSafe()
    ensures !StoresSafe(Start()) && forall w: nat :: w > 0 ==> !StoresSafeWithin(Start(), w)
  {
    var c := Start();
    StoreFields();
    SequentialRun(1);
    SequentialRun(2);
    assert AfterLoad().mem[2] == OUT && AfterStore().mem[2] == 0 && AfterStore().reg[PC] == 2;
    hide Step, After, Program, ZeroRegisters, IrAt, OperandsOk, Op;
    assert Straight(IrAt(c, 1)) by { assert Op(STORE) == 4; }
    assert StraightLine(c, 1, 2);
    assert After(c, 1).mem[PcAt(c, 2)] != After(c, 1 + 1).mem[PcAt(c, 2)];
  }

  // ----- Runs of the pipelined processor -----

  ghost predicate Leads(s: State, t: State, depth: PipeName -> nat)
    requires |s.operands| == OPERANDS
  {
    exists schedule: seq<Agent> :: Reached(s, schedule, depth) == t
  }

  lemma {:induction false} ReachedAppend(s: State, one: seq<Agent>, two: seq<Agent>, depth: PipeName -> nat)
    requires |s.operands| == OPERANDS
    ensures Reached(s, one + two, depth) == Reached(Reached(s, one, depth), two, depth)
  {
    hide AgentStep;
    if two == [] {
      assert one + two == one;
    } else {
      var all := one + two;
      assert all[..|all| - 1] == one + two[..|two| - 1];
      ReachedAppend(s, one, two[..|two| - 1], depth);
    }
  }

  lemma OneWord(w: Word)
    ensures [w][1..] == [] && [] + [w] == [w]
  {
  }

  lemma Follow(s: State, t: State, a: Agent, depth: PipeName -> nat)
    requires |s.operands| == OPERANDS && AgentStep(s, a, depth) == Some(t)
    ensures Leads(s, t, depth)
  {
    hide AgentStep;
    assert [a][..0] == [];
    assert Reached(s, [a], depth) == t;
  }

  lemma Onward(s: State, t: State, u: State, depth: PipeName -> nat)
    requires |s.operands| == |t.operands| == OPERANDS && Leads(s, t, depth) && Leads(t, u, depth)
    ensures Leads(s, u, depth)
  {
    var one :| Reached(s, one, depth) == t;
    var two :| Reached(t, two, depth) == u;
    ReachedAppend(s, one, two, depth);
  }

  function Values(ir: Word, pc: Word, n: nat): seq<Word> {
    seq(n, (i: nat) => OperandValue(i, ir, pc))
  }

  const NO_OPERANDS: seq<seq<Word>> := seq(OPERANDS, _ => [])

  /** Decode sends the operand pipes' next value and execute reads it. */
  lemma DeliverOne(s: State, ir: Word, pc: Word, n: nat, depth: PipeName -> nat)
    requires n < OPERANDS && DepthsPositive(depth) && s.reg[0] == 0 && s.operands == NO_OPERANDS
    requires s.decode == Sending(n, ir, pc) && s.exec == Reading(Values(ir, pc, n))
    ensures Leads(s, s.(decode := if n + 1 == OPERANDS then DecodeIdle else Sending(n + 1, ir, pc),
                        exec := Reading(Values(ir, pc, n + 1))), depth)
  {
    hide OperandValue;
    assert depth(Operand(n)) >= 1 && s.operands[n] == [];
    OneWord(OperandValue(n, ir, pc));
    var t := AgentStep(s, DecodeThread, depth).value;
    assert t.operands == s.operands[n := [OperandValue(n, ir, pc)]];
    var u := AgentStep(t, ExecThread, depth).value;
    assert u.operands == NO_OPERANDS;
    assert Values(ir, pc, n) + [OperandValue(n, ir, pc)] == Values(ir, pc, n + 1);
    assert u.reg == s.reg;
    hide AgentStep, DepthsPositive, Leads;
    Follow(s, t, DecodeThread, depth);
    Follow(t, u, ExecThread, depth);
    Onward(s, t, u, depth);
  }

  lemma {:induction false} Deliver(s: State, ir: Word, pc: Word, n: nat, depth: PipeName -> nat)
    requires n < OPERANDS && DepthsPositive(depth) && s.reg[0] == 0 && s.operands == NO_OPERANDS
    requires s.decode == Sending(n, ir, pc) && s.exec == Reading(Values(ir, pc, n))
    ensures Leads(s, s.(decode := DecodeIdle, exec := Reading(Values(ir, pc, OPERANDS))), depth)
    decreases OPERANDS - n
  {
    hide Leads, Values;
    DeliverOne(s, ir, pc, n, depth);
    if n + 1 < OPERANDS {
      var t := s.(decode := Sending(n + 1, ir, pc), exec := Reading(Values(ir, pc, n + 1)));
      Deliver(t, ir, pc, n + 1, depth);
      Onward(s, t, s.(decode := DecodeIdle, exec := Reading(Values(ir, pc, OPERANDS))), depth);
    }
  }

  lemma StartRun(s: State, pc: Word, depth: PipeName -> nat)
    requires s.run == Starting && s.startPc == [pc] && s.nextPc == [] && DepthsPositive(depth) && s.operands == NO_OPERANDS
    ensures Leads(s, s.(reg := s.reg[PC := 0], run := AwaitingStart, startPc := [], nextPc := [pc]), depth)
  {
    hide Leads;
    OneWord(pc);
    assert depth(NextPc) >= 1;
    var t := s.(reg := s.reg[PC := 0], run := AwaitingStart);
    var u := t.(run := HoldingStart(pc), startPc := []);
    var v := u.(run := AwaitingStart, nextPc := [pc]);
    Follow(s, t, RunThread, depth);
    Follow(t, u, RunThread, depth);
    Follow(u, v, RunThread, depth);
    Onward(s, t, u, depth);
    Onward(s, u, v, depth);
  }

  lemma FetchWord(s: State, pc: Word, depth: PipeName -> nat)
    requires s.fetch == FetchIdle && s.nextPc == [pc] && s.operands == NO_OPERANDS
    ensures Leads(s, s.(nextPc := [], fetch := Loaded(pc, s.mem[pc])), depth)
  {
    hide Leads;
    OneWord(pc);
    var t := s.(nextPc := [], fetch := GotPc(pc));
    var u := t.(fetch := Loaded(pc, s.mem[pc]));
    Follow(s, t, FetchThread, depth);
    Follow(t, u, FetchThread, depth);
    Onward(s, t, u, depth);
  }

  lemma SendWord(s: State, pc: Word, ir: Word, depth: PipeName -> nat)
    requires s.fetch == Loaded(pc, ir) && s.irPipe == s.pcToDecode == [] && DepthsPositive(depth) && s.operands == NO_OPERANDS
    ensures Leads(s, s.(fetch := FetchIdle, irPipe := [ir], pcToDecode := [pc]), depth)
  {
    hide Leads;
    OneWord(pc);
    OneWord(ir);
    assert depth(IrPipe) >= 1 && depth(PcToDecode) >= 1;
    var t := s.(irPipe := [ir], fetch := SentIr(pc));
    var u := t.(pcToDecode := [pc], fetch := FetchIdle);
    Follow(s, t, FetchThread, depth);
    Follow(t, u, FetchThread, depth);
    Onward(s, t, u, depth);
  }

  lemma DecodeWord(s: State, pc: Word, ir: Word, depth: PipeName -> nat)
    requires s.decode == DecodeIdle && s.irPipe == [ir] && s.pcToDecode == [pc] && s.nextPc == [] && Straight(ir)
    requires DepthsPositive(depth) && s.operands == NO_OPERANDS
    ensures Leads(s, s.(decode := Sending(0, ir, pc), irPipe := [], pcToDecode := [], nextPc := [Plus(pc, 1)]), depth)
  {
    hide Leads;
    OneWord(pc);
    OneWord(Plus(pc, 1));
    OneWord(ir);
    assert depth(NextPc) >= 1;
    var t := s.(decode := GotIr(ir), irPipe := []);
    var u := t.(decode := Deciding(ir, pc), pcToDecode := []);
    var v := u.(decode := Sending(0, ir, pc), nextPc := [Plus(pc, 1)]);
    Follow(s, t, DecodeThread, depth);
    Follow(t, u, DecodeThread, depth);
    Follow(u, v, DecodeThread, depth);
    Onward(s, t, u, depth);
    Onward(s, u, v, depth);
  }

  /** A straight instruction goes from fetch's hand to execute's, while fetch already reads the next word. */
  lemma FetchedAhead(s: State, pc: Word, ir: Word, depth: PipeName -> nat)
    requires s.fetch == Loaded(pc, ir) && s.nextPc == s.irPipe == s.pcToDecode == [] && s.decode == DecodeIdle
    requires s.exec == Reading([]) && s.reg[0] == 0 && Straight(ir) && DepthsPositive(depth) && s.operands == NO_OPERANDS
    ensures var next := Plus(pc, 1);
            Leads(s, s.(fetch := Loaded(next, s.mem[next]), exec := Reading(Values(ir, pc, OPERANDS))), depth)
  {
    hide Leads, Straight, Plus;
    var next := Plus(pc, 1);
    var t := s.(fetch := FetchIdle, irPipe := [ir], pcToDecode := [pc]);
    var u := s.(fetch := FetchIdle, nextPc := [next], decode := Sending(0, ir, pc));
    var v := s.(fetch := Loaded(next, s.mem[next]), decode := Sending(0, ir, pc));
    SendWord(s, pc, ir, depth);
    DecodeWord(t, pc, ir, depth);
    Onward(s, t, u, depth);
    FetchWord(u, next, depth);
    Onward(s, u, v, depth);
    assert Values(ir, pc, 0) == [];
    Deliver(v, ir, pc, 0, depth);
    Onward(s, v, s.(fetch := Loaded(next, s.mem[next]), exec := Reading(Values(ir, pc, OPERANDS))), depth);
  }

  lemma LoadPerformed(s: State, depth: PipeName -> nat)
    requires s.exec == Reading(Values(LOAD, 0, OPERANDS)) && s.reg == ZeroRegisters() && s.operands == NO_OPERANDS
    ensures Leads(s, s.(reg := Registers(), exec := Reading([])), depth)
  {
    LoadFields();
    var vals := Values(LOAD, 0, OPERANDS);
    assert vals[0] == 5 && vals[1] == 2 && vals[4] == 2 && s.reg[2] == 0;
    LoadOfZero(s.reg[2], 2);
    hide Leads, ZeroRegisters, Values, Op, R1, R2, R3, Imm, OperandsOk, LoadLow;
    Follow(s, s.(reg := Registers(), exec := Reading([])), ExecThread, depth);
  }

  /** The store is performed after the word that it overwrites has been fetched. */
  lemma StorePerformed(s: State, depth: PipeName -> nat)
    requires s.exec == Reading(Values(STORE, 1, OPERANDS)) && s.reg == Registers() && s.operands == NO_OPERANDS
    ensures Leads(s, s.(mem := s.mem[2 := 0], exec := Reading([])), depth)
  {
    StoreFields();
    var vals := Values(STORE, 1, OPERANDS);
    assert vals[0] == 4 && vals[1] == 1 && vals[2] == 2 && vals[3] == 0;
    assert s.reg[0] == s.reg[1] == 0 && s.reg[2] == 2;
    hide Leads, ZeroRegisters, Values, Op, R1, R2, R3, OperandsOk;
    Follow(s, s.(mem := s.mem[2 := 0], exec := Reading([])), ExecThread, depth);
  }

  /** The word fetched too early is executed. */
  lemma OldWordPerformed(s: State, depth: PipeName -> nat)
    requires s.exec == Reading(Values(OUT, 2, OPERANDS)) && s.reg == Registers() && s.operands == NO_OPERANDS
    requires s.outPort == [] && DepthsPositive(depth)
    ensures Leads(s, s.(outPort := [0], exec := Reading([])), depth)
  {
    OutFields();
    OneWord(0);
    var vals := Values(OUT, 2, OPERANDS);
    assert vals[0] == 14 && vals[1] == 1 && s.reg[1] == 0 && depth(OutPort) >= 1;
    hide Leads, ZeroRegisters, Values, Op, R1, R2, R3, OperandsOk;
    Follow(s, s.(outPort := [0], exec := Reading([])), ExecThread, depth);
  }

  /** From the start: the load, then the store, with the word after it in fetch's hand. */
  lemma StoreIsLate(s: State, depth: PipeName -> nat)
    requires s == InitialState(ZeroRegisters(), Program(), 0) && DepthsPositive(depth)
    ensures Leads(s, s.(run := AwaitingStart, startPc := [], reg := Registers(), mem := s.mem[2 := 0], fetch := Loaded(2, OUT)), depth)
  {
    LoadFields();
    StoreFields();
    var p := s.(run := AwaitingStart, startPc := []);
    assert s.reg[PC := 0] == s.reg && s.operands == NO_OPERANDS;
    assert s.mem[0] == LOAD && s.mem[1] == STORE && s.mem[2] == OUT && s.reg[0] == Registers()[0] == 0;
    assert Plus(0, 1) == 1 && Plus(1, 1) == 2 && Straight(LOAD) && Straight(STORE);
    hide Leads, Program, ZeroRegisters, DepthsPositive, Straight, Registers, Plus, Op, OperandsOk;
    StartRun(s, 0, depth);
    var t1 := p.(nextPc := [0]);
    FetchWord(t1, 0, depth);
    var t2 := p.(fetch := Loaded(0, LOAD));
    Onward(s, t1, t2, depth);
    FetchedAhead(t2, 0, LOAD, depth);
    var t3 := p.(fetch := Loaded(1, STORE), exec := Reading(Values(LOAD, 0, OPERANDS)));
    Onward(s, t2, t3, depth);
    LoadPerformed(t3, depth);
    var t4 := p.(fetch := Loaded(1, STORE), reg := Registers());
    Onward(s, t3, t4, depth);
    FetchedAhead(t4, 1, STORE, depth);
    var t5 := p.(fetch := Loaded(2, OUT), reg := Registers(), exec := Reading(Values(STORE, 1, OPERANDS)));
    Onward(s, t4, t5, depth);
    StorePerformed(t5, depth);
    Onward(s, t5, p.(fetch := Loaded(2, OUT), reg := Registers(), mem := s.mem[2 := 0]), depth);
  }

  /** Without the condition on stores the outputs can differ: the sequential processor writes nothing, and some
      interleaving of the pipelined one writes a 0. */
  lemma OldWordIsExecuted(depth: PipeName -> nat)
    requires DepthsPositive(depth)
    ensures Conforming(Start()) && !StoresSafeWithin(Start(), Window(depth))
    ensures forall k: nat :: After(Start(), k).out == [] && PcAt(Start(), k) <= |CODE|
    ensures exists schedule: seq<Agent> :: Output(StateAfter(ZeroRegisters(), Program(), 0, schedule, depth)) == [0]
  {
    var s := InitialState(ZeroRegisters(), Program(), 0);
    var t := s.(run := AwaitingStart, startPc := [], reg := Registers(), mem := s.mem[2 := 0], fetch := Loaded(2, OUT));
    OutFields();
    assert Straight(OUT) && Plus(2, 1) == 3 && Registers()[0] == 0 && s.operands == NO_OPERANDS;
    assert Window(depth) > 0;
    hide Leads, Program, ZeroRegisters, DepthsPositive, Step, After, StoresSafe, StoresSafeWithin, Window, Conforming, Straight, Registers, Plus, Op, OperandsOk;
    StoreIsLate(s, depth);
    FetchedAhead(t, 2, OUT, depth);
    var u := t.(fetch := Loaded(3, t.mem[3]), exec := Reading(Values(OUT, 2, OPERANDS)));
    Onward(s, t, u, depth);
    OldWordPerformed(u, depth);
    var v := t.(fetch := Loaded(3, t.mem[3]), outPort := [0]);
    Onward(s, u, v, depth);
    OutputDiffers(s, v, depth);
    forall k: nat ensures Conforming(Start()) && After(Start(), k).out == [] && PcAt(Start(), k) <= |CODE| {
      SequentialIsSilent(k);
    }
    StoresAreNotSafe();
  }

  lemma OutputDiffers(s: State, w: State, depth: PipeName -> nat)
    requires s == InitialState(ZeroRegisters(), Program(), 0) && Leads(s, w, depth) && Output(w) == [0]
    ensures exists schedule: seq<Agent> :: Output(StateAfter(ZeroRegisters(), Program(), 0, schedule, depth)) == [0]
  {
    var schedule :| Reached(s, schedule, depth) == w;
    assert StateAfter(ZeroRegisters(), Program(), 0, schedule, depth) == w;
  }
}
