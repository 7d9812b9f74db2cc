/** The main results on the pipelined processor: safety for every interleaving, the single control token,
    absence of deadlock, and that the sequential output can always be completed. */
module PipelineTheorems {
  import opened Isa
  import opened Pipeline
  import opened PipelineProof

  ghost function StateAfter(reg: RegFile, mem: Memory, start: Word, schedule: seq<Agent>, depth: PipeName -> nat): (s: State)
    ensures |s.operands| == OPERANDS
  {
    Reached(InitialState(reg, mem, start), schedule, depth)
  }

  lemma AgentKeepsFits(s: State, a: Agent, depth: PipeName -> nat)
    requires Fits(s, depth) && AgentStep(s, a, depth).Some?
    ensures Fits(AgentStep(s, a, depth).value, depth)
  {
    hide OperandValue;
  }

  lemma {:induction false} RunFits(reg: RegFile, mem: Memory, start: Word, schedule: seq<Agent>, depth: PipeName -> nat)
    ensures Fits(StateAfter(reg, mem, start, schedule, depth), depth)
  {
    if schedule != [] {
      var before, a := schedule[..|schedule| - 1], schedule[|schedule| - 1];
      RunFits(reg, mem, start, before, depth);
      var s := StateAfter(reg, mem, start, before, depth);
      if AgentStep(s, a, depth).Some? {
        AgentKeepsFits(s, a, depth);
      }
      hide AgentStep, InitialState;
    }
  }

  lemma {:induction false} InvOfRun(reg: RegFile, mem: Memory, start: Word, schedule: seq<Agent>, depth: PipeName -> nat)
    returns (n: Progress)
    requires TameWithin(Reference(reg, mem, start), Window(depth))
    ensures Inv(Reference(reg, mem, start), StateAfter(reg, mem, start, schedule, depth), n)
  {
    var c := Reference(reg, mem, start);
    if schedule == [] {
      InitialInv(reg, mem, start);
      n := Progress(0, 0, 0, 0);
    } else {
      var before, a := schedule[..|schedule| - 1], schedule[|schedule| - 1];
      n := InvOfRun(reg, mem, start, before, depth);
      hide Inv, StoresSafeWithin, OperandsOk, Fits, Window, FetchOk, InitialState, Reference, AgentStep;
      var s := StateAfter(reg, mem, start, before, depth);
      if AgentStep(s, a, depth).Some? {
        RunFits(reg, mem, start, before, depth);
        FetchReadsItsWord(c, s, depth, n);
        AgentKeepsInv(c, s, a, depth, n);
        n := Advance(s, a, n);
      }
    }
  }

  /** Safety: whatever the interleaving and the pipe depths, what has been written to out_port is the output
      of the sequential machine after some number of instructions, and memory is then the same too. */
  lemma OutputIsSequential(reg: RegFile, mem: Memory, start: Word, schedule: seq<Agent>, depth: PipeName -> nat)
    requires TameWithin(Reference(reg, mem, start), Window(depth))
    ensures exists k: nat ::
              && Output(StateAfter(reg, mem, start, schedule, depth)) == After(Reference(reg, mem, start), k).out
              && StateAfter(reg, mem, start, schedule, depth).mem == After(Reference(reg, mem, start), k).mem
              && forall j: nat :: j < k ==> !After(Reference(reg, mem, start), j).halt
  {
    var n := InvOfRun(reg, mem, start, schedule, depth);
    hide Step;
    var k := n.executed;
    assert Output(StateAfter(reg, mem, start, schedule, depth)) == After(Reference(reg, mem, start), k).out;
  }

  /** On a program that halts, the output is a prefix of the sequential machine's. */
  lemma OutputIsPrefix(reg: RegFile, mem: Memory, start: Word, schedule: seq<Agent>, depth: PipeName -> nat, k: nat)
    requires TameWithin(Reference(reg, mem, start), Window(depth)) && After(Reference(reg, mem, start), k).halt
    ensures Output(StateAfter(reg, mem, start, schedule, depth)) <= After(Reference(reg, mem, start), k).out
  {
    var c := Reference(reg, mem, start);
    var n := InvOfRun(reg, mem, start, schedule, depth);
    hide Step;
    if n.executed <= k {
      OutputGrows(c, n.executed, k);
    } else {
      HaltedStays(c, k, n.executed);
    }
  }

  // ----- The control token -----

  function ControlOps(q: seq<Word>): nat {
    if q == [] then 0
    else ControlOps(q[..|q| - 1]) + if q[|q| - 1] in {0, 8, 9, 10} then 1 else 0
  }

  /** The next pc before decode has settled who issues its successor: with run, in next_pc, in fetch's hand,
      or as an instruction word in ir_pipe or in decode's hand. */
  function UndecidedTokens(s: State): nat {
    |s.startPc| + (if s.run.HoldingStart? then 1 else 0)
    + |s.nextPc| + (if s.fetch.GotPc? || s.fetch.Loaded? then 1 else 0)
    + |s.irPipe| + (if s.decode.GotIr? || s.decode.Deciding? then 1 else 0)
  }

  /** Halt and control instructions between that decision and their completion by execute. */
  function PendingControls(s: State): nat {
    (if s.decode.Sending? && s.decode.n == 0 && Op(s.decode.ir) in {0, 8, 9, 10} then 1 else 0)
    + (if |s.operands| > 0 then ControlOps(s.operands[0]) else 0)
    + (if s.exec.vals != [] && s.exec.vals[0] in {0, 8, 9, 10} then 1 else 0)
  }

  function ControlTokens(s: State): nat {
    UndecidedTokens(s) + PendingControls(s)
  }

  /** Of the opcodes in the pipe only the last can be that of a control instruction. */
  lemma {:induction false} CountControlOps(c: Cpu, q: seq<Word>, lo: nat, hi: nat, last: nat)
    requires Stretch(c, OperandStream(0), q, lo, hi) && hi <= last + 1
    requires forall m: nat :: lo <= m < hi && m < last ==> Straight(IrAt(c, m))
    ensures ControlOps(q) == if lo <= last < hi && !Straight(IrAt(c, last)) then 1 else 0
  {
    hide Step, Execute, After;
    if q != [] {
      CountControlOps(c, q[..|q| - 1], lo, hi - 1, last);
    }
  }

  /** No thread holds anything, and nothing is on its way to one. */
  predicate AtRest(s: State) {
    && s.run == AwaitingStart && s.fetch == FetchIdle && s.decode == DecodeIdle && s.exec == Reading([])
    && s.startPc == s.nextPc == s.irPipe == s.pcToDecode == []
    && forall i :: 0 <= i < |s.operands| ==> s.operands[i] == []
  }

  /** There is exactly one control token until the processor has halted, and none after that. Seen from the state:
      there is one unless all threads are at rest with empty pipes, which they are exactly after the halt. */
  lemma ControlTokenIsUnique(reg: RegFile, mem: Memory, start: Word, schedule: seq<Agent>, depth: PipeName -> nat)
    returns (n: Progress)
    requires TameWithin(Reference(reg, mem, start), Window(depth))
    ensures Inv(Reference(reg, mem, start), StateAfter(reg, mem, start, schedule, depth), n)
    ensures var s, halted := StateAfter(reg, mem, start, schedule, depth), After(Reference(reg, mem, start), n.executed).halt;
            ControlTokens(s) == (if halted then 0 else 1) && (halted <==> AtRest(s))
  {
    var c, s := Reference(reg, mem, start), StateAfter(reg, mem, start, schedule, depth);
    n := InvOfRun(reg, mem, start, schedule, depth);
    hide StateAfter, Inv, Reference, Step, After, ControlTokens, AtRest;
    CountTokens(c, s, n);
    if After(c, n.executed).halt {
      HaltedIsAtRest(c, s, n);
    }
    if AtRest(s) {
      NoTokensAtRest(s);
    }
  }

  lemma NoTokensAtRest(s: State)
    requires AtRest(s)
    ensures ControlTokens(s) == 0
  {
  }

  lemma HaltedIsAtRest(c: Cpu, s: State, n: Progress)
    requires Conforming(c) && Inv(c, s, n) && After(c, n.executed).halt
    ensures AtRest(s)
  {
    assert !After(c, 0).halt;
    hide Step, Execute, After, IrAt, PcAt, OperandValue;
    assert n.issued > 0;
    assert Stretch(c, PcStream, s.nextPc, n.taken, n.issued);
    assert Stretch(c, IrStream, s.irPipe, IrRead(s, n), IrWritten(s, n));
    assert Stretch(c, PcStream, s.pcToDecode, PcRead(s, n), PcWritten(s, n));
    forall i | 0 <= i < OPERANDS ensures s.operands[i] == [] {
      assert Stretch(c, OperandStream(i), s.operands[i], OperandRead(s, n, i), OperandWritten(s, n, i));
    }
    assert Stretch(c, OperandStream(0), s.operands[0], OperandRead(s, n, 0), OperandWritten(s, n, 0));
  }

  lemma CountUndecided(c: Cpu, s: State, n: Progress)
    requires Conforming(c) && Inv(c, s, n)
    ensures UndecidedTokens(s) == if n.issued == 0 then 1 else n.issued - Decided(s, n)
  {
    hide Step, Execute, After;
    assert Stretch(c, PcStream, s.nextPc, n.taken, n.issued);
    assert Stretch(c, IrStream, s.irPipe, IrRead(s, n), IrWritten(s, n));
  }

  lemma CountPending(c: Cpu, s: State, n: Progress)
    requires Conforming(c) && Inv(c, s, n)
    ensures PendingControls(s)
            == if n.issued == 0 || Decided(s, n) < n.issued || After(c, n.executed).halt then 0 else 1
  {
    hide Step, Execute, After, MachineOk, HaltOk, StartOk;
    var read, written := OperandRead(s, n, 0), OperandWritten(s, n, 0);
    assert Stretch(c, OperandStream(0), s.operands[0], read, written);
    if n.issued > 0 {
      var last := n.issued - 1;
      CountControlOps(c, s.operands[0], read, written, last);
      assert s.exec.vals != [] ==> s.exec.vals[0] == At(c, OperandStream(0), n.executed) == Op(IrAt(c, n.executed));
      forall m: nat ensures Straight(IrAt(c, m)) <==> Op(IrAt(c, m)) !in {0, 8, 9, 10} {}
      assert n.executed < last ==> Straight(IrAt(c, n.executed));
      assert n.executed <= n.decoded < last ==> Straight(IrAt(c, n.decoded));
      hide IrAt, Op, Straight, ControlOps, Stretch, PipesOk, MachineOk, StartOk, HaltOk;
    }
  }

  lemma CountTokens(c: Cpu, s: State, n: Progress)
    requires Conforming(c) && Inv(c, s, n)
    ensures ControlTokens(s) == if After(c, n.executed).halt then 0 else 1
  {
    CountUndecided(c, s, n);
    CountPending(c, s, n);
    assert !After(c, 0).halt;
    hide Step, After, UndecidedTokens, PendingControls, PipesOk, HandsOk, MachineOk, StartOk;
  }

  // ----- No deadlock -----

  ghost predicate DepthsPositive(depth: PipeName -> nat) {
    forall p :: depth(p) >= 1
  }

  lemma HaltPortFree(c: Cpu, s: State, n: Progress)
    requires HaltOk(c, s, n) && !s.exec.Halting? && !After(c, n.executed).halt
    ensures s.haltPort == []
  {
    hide After;
    assert |Announced(s)| == |s.haltsRead| + |s.haltPort|;
  }

  /** A control instruction in execute's hand is the only one issued. */
  lemma NextPcFree(c: Cpu, s: State, n: Progress)
    requires Inv(c, s, n) && n.executed < n.decoded && n.issued == n.executed + 1
    ensures s.nextPc == []
  {
    hide Step, Execute, After, IrAt, PcAt, HandsOk, MachineOk, StartOk, HaltOk, OperandValue;
    assert Stretch(c, PcStream, s.nextPc, n.taken, n.issued);
    assert Stretch(c, IrStream, s.irPipe, IrRead(s, n), IrWritten(s, n));
  }

  /** The switch is held up by full pipes only. */
  lemma DispatchMoves(s: State, depth: PipeName -> nat)
    requires |s.operands| == OPERANDS && Ready(s) && DepthsPositive(depth)
    requires s.exec.Reading? && s.exec.vals[0] == 0 ==> s.haltPort == []
    requires s.exec.Reading? && s.exec.vals[0] in {8, 9, 10} ==> s.nextPc == []
    ensures ExecStep(s, depth).Some? || OutReaderStep(s).Some?
  {
    assert depth(NextPc) >= 1 && depth(HaltPort) >= 1 && depth(OutPort) >= 1;
  }

  lemma OpcodeRead(c: Cpu, s: State, n: Progress)
    requires HandsOk(c, s, n) && Ready(s)
    ensures s.exec.vals[0] == Op(IrAt(c, n.executed))
    ensures s.exec.vals[0] in {8, 9, 10} ==> !Straight(IrAt(c, n.executed))
  {
    ValuesRead(c, s, n);
    hide HandsOk, IrAt;
  }

  /** execute, with all operands in hand, is held up at most by a full out_port. */
  lemma ReadyMoves(c: Cpu, s: State, depth: PipeName -> nat, n: Progress)
    requires Conforming(c) && Inv(c, s, n) && DepthsPositive(depth) && Ready(s)
    ensures ExecStep(s, depth).Some? || OutReaderStep(s).Some?
  {
    assert |s.operands| == OPERANDS;
    hide Step, Execute, After, IrAt, PcAt, PipesOk, HandsOk, MachineOk, StartOk, TokenOk, HaltOk, Conforming, Straight, Op,
         ExecStep, OutReaderStep, DepthsPositive, Decided;
    ExecHoldsLive(c, s, n);
    OpcodeRead(c, s, n);
    if s.exec.Reading? {
      HaltPortFree(c, s, n);
      if s.exec.vals[0] in {8, 9, 10} {
        NextPcFree(c, s, n);
      }
    }
    DispatchMoves(s, depth);
  }

  /** While execute waits for an operand, the other threads are not all held up. */
  lemma WaitingMoves(c: Cpu, s: State, depth: PipeName -> nat, n: Progress) returns (a: Agent)
    requires Conforming(c) && Inv(c, s, n) && DepthsPositive(depth)
    requires n.issued > 0 && !After(c, n.executed).halt && !Ready(s) && s.operands[|s.exec.vals|] == []
    ensures a in {FetchThread, DecodeThread} && AgentStep(s, a, depth).Some?
  {
    hide Step, Execute, After, IrAt, PcAt, OperandValue, MachineOk, StartOk, HaltOk;
    var k := |s.exec.vals|;
    assert Stretch(c, PcStream, s.nextPc, n.taken, n.issued);
    assert Stretch(c, IrStream, s.irPipe, IrRead(s, n), IrWritten(s, n));
    assert Stretch(c, PcStream, s.pcToDecode, PcRead(s, n), PcWritten(s, n));
    assert Stretch(c, OperandStream(k), s.operands[k], OperandRead(s, n, k), OperandWritten(s, n, k));
    assert Stretch(c, OperandStream(0), s.operands[0], OperandRead(s, n, 0), OperandWritten(s, n, 0));
    assert depth(NextPc) >= 1 && depth(IrPipe) >= 1 && depth(PcToDecode) >= 1;
    match s.decode {
      case Sending(j, _, _) =>
        assert depth(Operand(j)) >= 1;
        assert Stretch(c, OperandStream(j), s.operands[j], OperandRead(s, n, j), OperandWritten(s, n, j));
        a := DecodeThread;
      case Deciding(_, _) => a := DecodeThread;
      case GotIr(_) => a := if s.pcToDecode != [] then DecodeThread else FetchThread;
      case DecodeIdle => a := if s.irPipe != [] then DecodeThread else FetchThread;
    }
  }

  /** With every depth at least 1, some thread, or the reader of out_port, can move until the halt. */
  lemma SomeoneMoves(c: Cpu, s: State, depth: PipeName -> nat, n: Progress) returns (a: Agent)
    requires Conforming(c) && Inv(c, s, n) && DepthsPositive(depth) && !After(c, n.executed).halt
    ensures a != HaltReader && AgentStep(s, a, depth).Some?
  {
    hide Step, Execute, After, MachineOk, HaltOk;
    if n.issued == 0 {
      assert Stretch(c, PcStream, s.nextPc, n.taken, n.issued);
      assert depth(NextPc) >= 1;
      a := RunThread;
    } else if Ready(s) {
      ReadyMoves(c, s, depth, n);
      a := if ExecStep(s, depth).Some? then ExecThread else OutReader;
    } else if s.operands[|s.exec.vals|] != [] {
      a := ExecThread;
    } else {
      a := WaitingMoves(c, s, depth, n);
    }
  }

  // ----- The sequential output can always be completed -----

  // The number of steps each thread has taken so far.
  function RunEffort(s: State, n: Progress): int {
    match s.run case Starting => 0 case AwaitingStart => if n.issued == 0 then 1 else 3 case HoldingStart(_) => 2
  }
  function FetchEffort(s: State, n: Progress): int {
    4 * n.taken - match s.fetch case GotPc(_) => 3 case Loaded(_, _) => 2 case SentIr(_) => 1 case FetchIdle => 0
  }
  function DecodeEffort(s: State, n: Progress): int {
    10 * n.decoded
    + match s.decode case DecodeIdle => 0 case GotIr(_) => 1 case Deciding(_, _) => 2 case Sending(k, _, _) => 3 + k
  }
  function ExecEffort(s: State, n: Progress): int {
    9 * n.executed + |s.exec.vals| + if s.exec.Halting? then 1 else 0
  }

  function Effort(s: State, n: Progress): int {
    RunEffort(s, n) + FetchEffort(s, n) + DecodeEffort(s, n) + ExecEffort(s, n) + |s.received|
  }

  lemma ReadEffortGrows(s: State, depth: PipeName -> nat, n: Progress)
    requires |s.operands| == OPERANDS && |s.exec.vals| < OPERANDS && ExecStep(s, depth).Some?
    ensures var s' := ExecStep(s, depth).value;
            s'.exec.Reading? && |s'.exec.vals| == |s.exec.vals| + 1 && s'.run == s.run && Executing(s, n) == n
            && s'.fetch == s.fetch && s'.decode == s.decode && s'.received == s.received && s.exec.Reading?
  {
    hide Dispatch;
  }

  lemma PerformEffortGrows(s: State, s': State, n: Progress)
    requires |s.exec.vals| == OPERANDS && s'.run == s.run && n.issued > 0
    requires s'.exec == (if s.exec.Reading? && s.exec.vals[0] == 0 then Halting(s.exec.vals) else Reading([]))
    ensures ExecEffort(s', Executing(s, n)) > ExecEffort(s, n) && RunEffort(s', Executing(s, n)) >= RunEffort(s, n)
  {
  }

  lemma ExecEffortGrows(c: Cpu, s: State, depth: PipeName -> nat, n: Progress)
    requires Conforming(c) && Inv(c, s, n) && ExecStep(s, depth).Some?
    ensures var s', n' := ExecStep(s, depth).value, Executing(s, n);
            && ExecEffort(s', n') > ExecEffort(s, n) && RunEffort(s', n') >= RunEffort(s, n)
            && s'.fetch == s.fetch && s'.decode == s.decode && s'.received == s.received
  {
    assert |s.operands| == OPERANDS && |s.exec.vals| <= OPERANDS;
    hide Step, Execute, After, PipesOk, HandsOk, MachineOk, StartOk, TokenOk, HaltOk, Conforming, ExecStep, Executing;
    if Ready(s) {
      DispatchFrame(s, depth);
      ExecHoldsLive(c, s, n);
      SomeIssued(c, s, n);
      PerformEffortGrows(s, ExecStep(s, depth).value, n);
    } else {
      ReadEffortGrows(s, depth, n);
    }
  }

  lemma FetchEffortGrows(s: State, depth: PipeName -> nat, n: Progress)
    requires FetchStep(s, depth).Some?
    ensures Effort(FetchStep(s, depth).value, Fetching(s, n)) > Effort(s, n)
  {
  }

  lemma DecodeEffortGrows(s: State, depth: PipeName -> nat, n: Progress)
    requires |s.operands| == OPERANDS && DecodeStep(s, depth).Some?
    ensures Effort(DecodeStep(s, depth).value, Decoding(s, n)) > Effort(s, n)
  {
    hide OperandValue, Straight;
  }

  lemma RunEffortGrows(c: Cpu, s: State, depth: PipeName -> nat, n: Progress)
    requires StartOk(c, s, n) && RunStep(s, depth).Some?
    ensures Effort(RunStep(s, depth).value, Running(s, n)) > Effort(s, n)
  {
    hide Step, Execute, After;
  }

  /** fetch and decode have got as far as before. */
  lemma OtherEfforts(s: State, t: State, n: Progress, n': Progress)
    requires t.fetch == s.fetch && t.decode == s.decode && n'.taken == n.taken && n'.decoded == n.decoded
    ensures FetchEffort(t, n') == FetchEffort(s, n) && DecodeEffort(t, n') == DecodeEffort(s, n)
    ensures t.run == s.run && n' == n ==> RunEffort(t, n') == RunEffort(s, n)
    ensures t.exec == s.exec && n' == n ==> ExecEffort(t, n') == ExecEffort(s, n)
  {
  }

  lemma EffortGrows(c: Cpu, s: State, a: Agent, depth: PipeName -> nat, n: Progress)
    requires Conforming(c) && Inv(c, s, n) && a != HaltReader && AgentStep(s, a, depth).Some?
    ensures Effort(AgentStep(s, a, depth).value, Advance(s, a, n)) > Effort(s, n)
  {
    assert |s.operands| == OPERANDS;
    hide Step, After, PipesOk, HandsOk, MachineOk, StartOk, TokenOk, HaltOk, Conforming,
         RunStep, FetchStep, DecodeStep, ExecStep, RunEffort, FetchEffort, DecodeEffort, ExecEffort;
    match a
    case RunThread => RunEffortGrows(c, s, depth, n);
    case FetchThread => FetchEffortGrows(s, depth, n);
    case DecodeThread => DecodeEffortGrows(s, depth, n);
    case ExecThread =>
      ExecEffortGrows(c, s, depth, n);
      OtherEfforts(s, ExecStep(s, depth).value, n, Executing(s, n));
    case OutReader => OtherEfforts(s, OutReaderStep(s).value, n, n);
    case HaltReader =>
  }

  lemma {:induction false} OutputBounded(c: Cpu, k: nat)
    requires c.out == []
    ensures |After(c, k).out| <= k
  {
    if k > 0 {
      OutputBounded(c, k - 1);
    }
  }

  function Limit(k: nat, depth: PipeName -> nat): nat {
    var decoded := k + 1 + depth(Operand(0));
    3 + 4 * (decoded + 2 + depth(IrPipe)) + 10 * decoded + 10 + 9 * k + 8 + k
  }

  /** fetch and decode are at most the depths of the pipes ahead, and one instruction in each hand. */
  lemma AheadLimited(c: Cpu, s: State, depth: PipeName -> nat, n: Progress)
    requires Inv(c, s, n) && Fits(s, depth)
    ensures n.decoded <= n.executed + 1 + depth(Operand(0)) && n.taken <= n.decoded + 2 + depth(IrPipe)
    ensures |s.exec.vals| <= OPERANDS && (s.decode.Sending? ==> s.decode.n < OPERANDS)
  {
    hide Step, Execute, After, OperandValue, IrAt, PcAt, MachineOk, HaltOk, StartOk, TokenOk, At;
    assert Stretch(c, IrStream, s.irPipe, IrRead(s, n), IrWritten(s, n));
    assert Stretch(c, OperandStream(0), s.operands[0], OperandRead(s, n, 0), OperandWritten(s, n, 0));
  }

  lemma ReceivedLimited(c: Cpu, s: State, n: Progress)
    requires Conforming(c) && MachineOk(c, s, n)
    ensures |s.received| <= n.executed
  {
    OutputBounded(c, n.executed);
    hide After, RegistersAgree;
    assert |Output(s)| == |s.received| + |s.outPort|;
  }

  lemma EffortLimited(c: Cpu, s: State, depth: PipeName -> nat, n: Progress, k: nat)
    requires Conforming(c) && Inv(c, s, n) && Fits(s, depth) && n.executed <= k
    ensures Effort(s, n) <= Limit(k, depth)
  {
    hide Step, Execute, After, PipesOk, HandsOk, MachineOk, StartOk, TokenOk, HaltOk, Conforming, Fits;
    AheadLimited(c, s, depth, n);
    ReceivedLimited(c, s, n);
  }

  lemma {:induction false} GoOn(reg: RegFile, mem: Memory, start: Word, schedule: seq<Agent>, depth: PipeName -> nat,
                                n: Progress, k: nat)
    returns (more: seq<Agent>, n': Progress)
    requires TameWithin(Reference(reg, mem, start), Window(depth)) && DepthsPositive(depth)
    requires Inv(Reference(reg, mem, start), StateAfter(reg, mem, start, schedule, depth), n)
    ensures Inv(Reference(reg, mem, start), StateAfter(reg, mem, start, schedule + more, depth), n')
    ensures n'.executed >= k || After(Reference(reg, mem, start), n'.executed).halt
    decreases Limit(k, depth) - Effort(StateAfter(reg, mem, start, schedule, depth), n)
  {
    var c, s := Reference(reg, mem, start), StateAfter(reg, mem, start, schedule, depth);
    hide Inv, StoresSafeWithin, OperandsOk, Fits, Window, FetchOk, InitialState, Reference, Step, After, Effort, Limit, AgentStep;
    if n.executed >= k || After(c, n.executed).halt {
      more, n' := [], n;
      assert schedule + [] == schedule;
    } else {
      var a := SomeoneMoves(c, s, depth, n);
      RunFits(reg, mem, start, schedule, depth);
      FetchReadsItsWord(c, s, depth, n);
      AgentKeepsInv(c, s, a, depth, n);
      EffortGrows(c, s, a, depth, n);
      EffortLimited(c, s, depth, n, k);
      var longer := schedule + [a];
      assert longer[..|longer| - 1] == schedule;
      var rest;
      rest, n' := GoOn(reg, mem, start, longer, depth, Advance(s, a, n), k);
      more := [a] + rest;
      assert schedule + more == longer + rest;
    }
  }

  /** Liveness: from every reachable state, and for every k, there is a continuation after which everything
      the sequential machine writes in its first k instructions has been written. */
  lemma OutputCanBeCompleted(reg: RegFile, mem: Memory, start: Word, schedule: seq<Agent>, depth: PipeName -> nat, k: nat)
    requires TameWithin(Reference(reg, mem, start), Window(depth)) && DepthsPositive(depth)
    ensures exists more: seq<Agent> ::
              After(Reference(reg, mem, start), k).out <= Output(StateAfter(reg, mem, start, schedule + more, depth))
  {
    var c := Reference(reg, mem, start);
    var n := InvOfRun(reg, mem, start, schedule, depth);
    var more, n' := GoOn(reg, mem, start, schedule, depth, n, k);
    hide Step;
    assert Output(StateAfter(reg, mem, start, schedule + more, depth)) == After(c, n'.executed).out;
    if n'.executed >= k {
      OutputGrows(c, k, n'.executed);
    } else {
      HaltedStays(c, n'.executed, k);
    }
  }

  // ----- Every run gets on -----

  /** How many steps of the schedule were taken by threads, or by the reader of out_port, that were not blocked. */
  function Moves(s: State, schedule: seq<Agent>, depth: PipeName -> nat): nat
    requires |s.operands| == OPERANDS
  {
    if schedule == [] then 0
    else
      var before, a := schedule[..|schedule| - 1], schedule[|schedule| - 1];
      Moves(s, before, depth)
      + if a != HaltReader && AgentStep(Reached(s, before, depth), a, depth).Some? then 1 else 0
  }

  lemma NextState(reg: RegFile, mem: Memory, start: Word, before: seq<Agent>, a: Agent, schedule: seq<Agent>, depth: PipeName -> nat)
    requires schedule != [] && before == schedule[..|schedule| - 1] && a == schedule[|schedule| - 1]
    ensures var s := StateAfter(reg, mem, start, before, depth);
            StateAfter(reg, mem, start, schedule, depth) == match AgentStep(s, a, depth) case Some(t) => t case None => s
    ensures Moves(InitialState(reg, mem, start), schedule, depth)
            == Moves(InitialState(reg, mem, start), before, depth)
               + if a != HaltReader && AgentStep(StateAfter(reg, mem, start, before, depth), a, depth).Some? then 1 else 0
  {
    hide AgentStep, InitialState;
  }

  lemma {:induction false} MovesAreEffort(reg: RegFile, mem: Memory, start: Word, schedule: seq<Agent>, depth: PipeName -> nat)
    returns (n: Progress)
    requires TameWithin(Reference(reg, mem, start), Window(depth))
    ensures Inv(Reference(reg, mem, start), StateAfter(reg, mem, start, schedule, depth), n)
    ensures Moves(InitialState(reg, mem, start), schedule, depth) <= Effort(StateAfter(reg, mem, start, schedule, depth), n)
  {
    var c := Reference(reg, mem, start);
    hide StoresSafeWithin, OperandsOk, Fits, Window, FetchOk, AgentStep, Step, After;
    if schedule == [] {
      InitialInv(reg, mem, start);
      n := Progress(0, 0, 0, 0);
    } else {
      hide Inv, InitialState, Reference, Effort, StateAfter, Moves;
      var before, a := schedule[..|schedule| - 1], schedule[|schedule| - 1];
      n := MovesAreEffort(reg, mem, start, before, depth);
      var s := StateAfter(reg, mem, start, before, depth);
      NextState(reg, mem, start, before, a, schedule, depth);
      if AgentStep(s, a, depth).Some? {
        RunFits(reg, mem, start, before, depth);
        FetchReadsItsWord(c, s, depth, n);
        AgentKeepsInv(c, s, a, depth, n);
        if a == HaltReader {
          HaltReaderRests(s, depth, n);
        } else {
          EffortGrows(c, s, a, depth, n);
        }
        n := Advance(s, a, n);
      }
    }
  }

  lemma HaltReaderRests(s: State, depth: PipeName -> nat, n: Progress)
    requires |s.operands| == OPERANDS && AgentStep(s, HaltReader, depth).Some?
    ensures Effort(AgentStep(s, HaltReader, depth).value, Advance(s, HaltReader, n)) == Effort(s, n)
  {
  }

  /** Whatever the interleaving, after more than Limit(k, depth) moves everything that the sequential machine writes in
      its first k instructions has been written. */
  lemma EveryRunWrites(reg: RegFile, mem: Memory, start: Word, schedule: seq<Agent>, depth: PipeName -> nat, k: nat)
    requires TameWithin(Reference(reg, mem, start), Window(depth))
    requires Moves(InitialState(reg, mem, start), schedule, depth) > Limit(k, depth)
    ensures After(Reference(reg, mem, start), k).out <= Output(StateAfter(reg, mem, start, schedule, depth))
  {
    var c, s := Reference(reg, mem, start), StateAfter(reg, mem, start, schedule, depth);
    hide *;
    var n := GetsPast(reg, mem, start, schedule, depth, k);
    OutputIs(c, s, n);
    OutputGrows(c, k, n.executed);
  }

  lemma GetsPast(reg: RegFile, mem: Memory, start: Word, schedule: seq<Agent>, depth: PipeName -> nat, k: nat)
    returns (n: Progress)
    requires TameWithin(Reference(reg, mem, start), Window(depth))
    requires Moves(InitialState(reg, mem, start), schedule, depth) > Limit(k, depth)
    ensures Inv(Reference(reg, mem, start), StateAfter(reg, mem, start, schedule, depth), n) && n.executed > k
  {
    n := MovesAreEffort(reg, mem, start, schedule, depth);
    RunFits(reg, mem, start, schedule, depth);
    hide Step, After, Effort, Limit, StateAfter, InitialState, Reference, Moves, Inv, Fits, Window, StoresSafeWithin, OperandsOk;
    if n.executed <= k {
      EffortLimited(Reference(reg, mem, start), StateAfter(reg, mem, start, schedule, depth), depth, n, k);
    }
  }

  lemma OutputIs(c: Cpu, s: State, n: Progress)
    requires Inv(c, s, n)
    ensures Output(s) == After(c, n.executed).out
    ensures After(c, n.executed).halt ==> Announced(s) == [1]
  {
    hide After, PipesOk, HandsOk, TokenOk, StartOk;
  }

  /** On a program that halts within k instructions, no interleaving has more than Limit(k, depth) moves. */
  lemma EveryRunEnds(reg: RegFile, mem: Memory, start: Word, schedule: seq<Agent>, depth: PipeName -> nat, k: nat)
    requires TameWithin(Reference(reg, mem, start), Window(depth)) && After(Reference(reg, mem, start), k).halt
    ensures Moves(InitialState(reg, mem, start), schedule, depth) <= Limit(k, depth)
  {
    var c, s := Reference(reg, mem, start), StateAfter(reg, mem, start, schedule, depth);
    var n := MovesAreEffort(reg, mem, start, schedule, depth);
    RunFits(reg, mem, start, schedule, depth);
    hide Step, After, Effort, Limit, StateAfter, InitialState, Reference, Moves, PipesOk, HandsOk, Fits;
    assert n.executed <= k;
    EffortLimited(c, s, depth, n, k);
  }

  // ----- The halt is announced -----

  /** Nothing but a single 1 is ever written to the halt port. It is written when execute takes the halt instruction, and
      then all that the sequential machine writes before its halt has been written. */
  lemma HaltIsAnnounced(reg: RegFile, mem: Memory, start: Word, schedule: seq<Agent>, depth: PipeName -> nat)
    requires TameWithin(Reference(reg, mem, start), Window(depth))
    ensures var s := StateAfter(reg, mem, start, schedule, depth);
            Announced(s) == [] || Announced(s) == [1]
    ensures Announced(StateAfter(reg, mem, start, schedule, depth)) == [1] ==> exists k: nat ::
              && After(Reference(reg, mem, start), k).halt
              && Output(StateAfter(reg, mem, start, schedule, depth)) == After(Reference(reg, mem, start), k).out
    ensures Announced(StateAfter(reg, mem, start, schedule, depth)) == [] ==> exists k: nat ::
              && !After(Reference(reg, mem, start), k).halt
              && Output(StateAfter(reg, mem, start, schedule, depth)) == After(Reference(reg, mem, start), k).out
              && !StateAfter(reg, mem, start, schedule, depth).exec.Halting?
  {
    var c, s := Reference(reg, mem, start), StateAfter(reg, mem, start, schedule, depth);
    var n := InvOfRun(reg, mem, start, schedule, depth);
    hide StateAfter, Reference, After, PipesOk, TokenOk, StartOk;
    assert Output(s) == After(c, n.executed).out;
    if s.exec.Halting? {
      HaltWritesNothing(c, n.executed);
    }
  }

  lemma HaltWritesNothing(c: Cpu, k: nat)
    requires Op(IrAt(c, k)) == 0
    ensures After(c, k + 1).halt && After(c, k + 1).out == After(c, k).out
  {
    assert After(c, k + 1) == Step(After(c, k));
  }

  /** Every run of more than Limit(k, depth) moves on a program whose instruction k halts has announced it, and has written
      the whole output. */
  lemma EveryRunAnnounces(reg: RegFile, mem: Memory, start: Word, schedule: seq<Agent>, depth: PipeName -> nat, k: nat)
    requires TameWithin(Reference(reg, mem, start), Window(depth)) && After(Reference(reg, mem, start), k + 1).halt
    requires Moves(InitialState(reg, mem, start), schedule, depth) > Limit(k, depth)
    ensures Announced(StateAfter(reg, mem, start, schedule, depth)) == [1]
    ensures Output(StateAfter(reg, mem, start, schedule, depth)) == After(Reference(reg, mem, start), k + 1).out
  {
    var c, s := Reference(reg, mem, start), StateAfter(reg, mem, start, schedule, depth);
    hide *;
    var n := GetsPast(reg, mem, start, schedule, depth, k);
    HaltedStays(c, k + 1, n.executed);
    OutputIs(c, s, n);
  }

  /** A run in which no thread can move any more, nor the reader, has written the whole output of a machine that halts, and
      has announced the halt. */
  lemma StuckHasHalted(reg: RegFile, mem: Memory, start: Word, schedule: seq<Agent>, depth: PipeName -> nat)
    requires TameWithin(Reference(reg, mem, start), Window(depth)) && DepthsPositive(depth)
    requires forall a: Agent :: a != HaltReader ==> AgentStep(StateAfter(reg, mem, start, schedule, depth), a, depth).None?
    ensures exists k: nat ::
              && After(Reference(reg, mem, start), k).halt
              && Output(StateAfter(reg, mem, start, schedule, depth)) == After(Reference(reg, mem, start), k).out
    ensures Announced(StateAfter(reg, mem, start, schedule, depth)) == [1]
    ensures AgentStep(StateAfter(reg, mem, start, schedule, depth), HaltReader, depth).None? ==>
              StateAfter(reg, mem, start, schedule, depth).haltsRead == [1]
  {
    var c, s := Reference(reg, mem, start), StateAfter(reg, mem, start, schedule, depth);
    var n := InvOfRun(reg, mem, start, schedule, depth);
    hide Step, StateAfter, Reference, PipesOk, HandsOk, TokenOk, StartOk, RunStep, FetchStep, DecodeStep, ExecStep;
    if !After(c, n.executed).halt {
      var a := SomeoneMoves(c, s, depth, n);
    }
    assert Output(s) == After(c, n.executed).out;
    assert s.haltPort == [] ==> s.haltsRead + [] == s.haltsRead;
  }
}
