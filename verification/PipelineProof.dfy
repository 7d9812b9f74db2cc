/** Every interleaving of the pipelined processor computes the sequential run: each pipe always holds a
    stretch of a stream that the sequential machine determines. */
module PipelineProof {
  import opened Isa
  import opened Pipeline

  /** How far the run has got: program counters written to and read from next_pc, instructions that have
      left decode, instructions completed by execute. */
  datatype Progress = Progress(issued: nat, taken: nat, decoded: nat, executed: nat)

  /** What each pipe carries, for the instructions of the sequential run in order. */
  datatype Stream = PcStream | IrStream | OperandStream(n: nat)

  ghost function At(c: Cpu, st: Stream, k: nat): Word {
    match st
    case PcStream => PcAt(c, k)
    case IrStream => IrAt(c, k)
    case OperandStream(n) => OperandValue(n, IrAt(c, k), PcAt(c, k))
  }

  /** Entries lo, lo+1, ..., hi-1 of the stream. */
  ghost predicate Stretch(c: Cpu, st: Stream, q: seq<Word>, lo: int, hi: int) {
    && 0 <= lo <= hi && |q| == hi - lo
    && forall i :: 0 <= i < |q| ==> q[i] == At(c, st, lo + i)
  }

  // Entries written to and read from each pipe, from the positions of the threads.
  function IrWritten(s: State, n: Progress): int {
    n.taken - if s.fetch.GotPc? || s.fetch.Loaded? then 1 else 0
  }
  function PcWritten(s: State, n: Progress): int { n.taken - if s.fetch.FetchIdle? then 0 else 1 }
  function IrRead(s: State, n: Progress): nat { n.decoded + if s.decode.DecodeIdle? then 0 else 1 }
  function PcRead(s: State, n: Progress): nat {
    n.decoded + if s.decode.Deciding? || s.decode.Sending? then 1 else 0
  }
  function OperandWritten(s: State, n: Progress, i: nat): nat {
    n.decoded + if s.decode.Sending? && i < s.decode.n then 1 else 0
  }
  function OperandRead(s: State, n: Progress, i: nat): nat {
    n.executed + if s.exec.Halting? || i < |s.exec.vals| then 1 else 0
  }
  /** Instructions for which decode has settled whether to issue the next pc. */
  function Decided(s: State, n: Progress): nat { n.decoded + if s.decode.Sending? then 1 else 0 }

  ghost predicate PipesOk(c: Cpu, s: State, n: Progress) {
    && Stretch(c, PcStream, s.nextPc, n.taken, n.issued)
    && Stretch(c, IrStream, s.irPipe, IrRead(s, n), IrWritten(s, n))
    && Stretch(c, PcStream, s.pcToDecode, PcRead(s, n), PcWritten(s, n))
    && |s.operands| == OPERANDS
    && forall i :: 0 <= i < OPERANDS ==>
         Stretch(c, OperandStream(i), s.operands[i], OperandRead(s, n, i), OperandWritten(s, n, i))
  }

  ghost predicate HandsOk(c: Cpu, s: State, n: Progress) {
    && (match s.fetch
        case FetchIdle => true
        case GotPc(pc) => n.taken > 0 && pc == PcAt(c, n.taken - 1)
        case Loaded(pc, ir) => n.taken > 0 && pc == PcAt(c, n.taken - 1) && ir == IrAt(c, n.taken - 1)
        case SentIr(pc) => n.taken > 0 && pc == PcAt(c, n.taken - 1))
    && (match s.decode
        case DecodeIdle => true
        case GotIr(ir) => ir == IrAt(c, n.decoded)
        case Deciding(ir, pc) => ir == IrAt(c, n.decoded) && pc == PcAt(c, n.decoded)
        case Sending(k, ir, pc) => k < OPERANDS && ir == IrAt(c, n.decoded) && pc == PcAt(c, n.decoded))
    && |s.exec.vals| <= OPERANDS
    && (forall i :: 0 <= i < |s.exec.vals| ==> s.exec.vals[i] == At(c, OperandStream(i), n.executed))
    && (s.exec.Halting? ==> |s.exec.vals| == OPERANDS && Op(IrAt(c, n.executed)) == 0)
  }

  /** r1..r14 agree; r0 and r15 are private to each machine. */
  ghost predicate RegistersAgree(s: State, c: Cpu) {
    forall i :: 0 < i < PC ==> s.reg[i] == c.reg[i]
  }

  ghost predicate MachineOk(c: Cpu, s: State, n: Progress) {
    var ref := After(c, n.executed);
    && s.mem == ref.mem
    && Output(s) == ref.out
    && (!ref.halt ==> RegistersAgree(s, ref))
    && (s.exec.vals != [] ==> s.reg[0] == 0)
    && (forall m: nat :: m < n.executed ==> !After(c, m).halt)
  }

  /** The start pc is in the environment's pipe or in run's hand, or it has been issued. */
  ghost predicate StartOk(c: Cpu, s: State, n: Progress) {
    if n.issued == 0 then
      if s.run.HoldingStart? then s.startPc == [] && s.run.pc == PcAt(c, 0)
      else s.startPc == [PcAt(c, 0)]
    else
      s.startPc == [] && s.run == AwaitingStart
  }

  /** Of the instructions issued, at most the last is still undecided or waits in front of execute as a
      control instruction; all others in flight are straight. */
  ghost predicate TokenOk(c: Cpu, s: State, n: Progress) {
    && n.executed <= n.decoded && Decided(s, n) <= n.issued
    && (n.issued > 0 ==> n.issued - 1 <= Decided(s, n))
    && (forall m: nat :: n.executed <= m < n.issued - 1 ==> Straight(IrAt(c, m)))
    && (n.issued > 0 && Decided(s, n) == n.issued ==>
          !Straight(IrAt(c, n.issued - 1)) && (n.executed < n.issued || After(c, n.executed).halt))
    && (After(c, n.executed).halt ==> n.issued == n.executed)
  }

  /** A 1 is written to the halt port once, by the halt instruction. */
  ghost predicate HaltOk(c: Cpu, s: State, n: Progress) {
    Announced(s) == if s.exec.Halting? || After(c, n.executed).halt then [1] else []
  }

  ghost predicate Inv(c: Cpu, s: State, n: Progress) {
    && PipesOk(c, s, n) && HandsOk(c, s, n) && MachineOk(c, s, n)
    && StartOk(c, s, n) && TokenOk(c, s, n) && HaltOk(c, s, n)
  }

  lemma InitialInv(reg: RegFile, mem: Memory, start: Word)
    requires Conforming(Reference(reg, mem, start))
    ensures Inv(Reference(reg, mem, start), InitialState(reg, mem, start), Progress(0, 0, 0, 0))
  {
    assert After(Reference(reg, mem, start), 0) == Reference(reg, mem, start);
  }

  lemma Pop(c: Cpu, st: Stream, q: seq<Word>, lo: int, hi: int)
    requires Stretch(c, st, q, lo, hi) && q != []
    ensures lo < hi && q[0] == At(c, st, lo) && Stretch(c, st, q[1..], lo + 1, hi)
  {
    hide Step, Execute, OperandValue, After, At;
  }

  lemma Push(c: Cpu, st: Stream, q: seq<Word>, lo: int, hi: int)
    requires Stretch(c, st, q, lo, hi)
    ensures Stretch(c, st, q + [At(c, st, hi)], lo, hi + 1)
  {
    hide Step, Execute, OperandValue, After, At;
  }

  function Fetching(s: State, n: Progress): Progress {
    if s.fetch.FetchIdle? then n.(taken := n.taken + 1) else n
  }

  lemma FetchKeepsPipes(c: Cpu, s: State, depth: PipeName -> nat, n: Progress)
    requires PipesOk(c, s, n) && HandsOk(c, s, n) && FetchStep(s, depth).Some?
    ensures PipesOk(c, FetchStep(s, depth).value, Fetching(s, n))
  {
    hide Step, Execute, OperandValue, After, Stretch;
    var s' := FetchStep(s, depth).value;
    match s.fetch
    case FetchIdle => Pop(c, PcStream, s.nextPc, n.taken, n.issued);
    case GotPc(_) =>
    case Loaded(_, _) => Push(c, IrStream, s.irPipe, IrRead(s, n), IrWritten(s, n));
    case SentIr(_) => Push(c, PcStream, s.pcToDecode, PcRead(s, n), PcWritten(s, n));
  }

  /** The word fetch is about to read is the one the sequential machine will execute. */
  ghost predicate FetchOk(c: Cpu, s: State, n: Progress) {
    s.fetch.GotPc? && n.taken > 0 ==> s.mem[s.fetch.pc] == IrAt(c, n.taken - 1)
  }

  lemma FetchKeepsHands(c: Cpu, s: State, depth: PipeName -> nat, n: Progress)
    requires HandsOk(c, s, n) && FetchStep(s, depth).Some?
    requires s.nextPc != [] ==> s.nextPc[0] == PcAt(c, n.taken)
    requires FetchOk(c, s, n)
    ensures HandsOk(c, FetchStep(s, depth).value, Fetching(s, n))
  {
    hide Step, Execute, OperandValue, After;
  }

  /** fetch and decode touch neither the machine nor the environment's pipes. */
  lemma FrontKeepsMachine(c: Cpu, s: State, s': State, n: Progress, n': Progress)
    requires MachineOk(c, s, n) && StartOk(c, s, n) && HaltOk(c, s, n)
    requires s' == s.(nextPc := s'.nextPc, irPipe := s'.irPipe, pcToDecode := s'.pcToDecode,
                      operands := s'.operands, fetch := s'.fetch, decode := s'.decode)
    requires n'.executed == n.executed && (n'.issued == n.issued || n'.issued > n.issued > 0)
    ensures MachineOk(c, s', n') && StartOk(c, s', n') && HaltOk(c, s', n')
  {
    SameAnnounced(s, s');
    hide Step, Execute, After, Announced;
  }

  lemma FetchFrame(s: State, depth: PipeName -> nat, n: Progress)
    requires FetchStep(s, depth).Some?
    ensures var s', n' := FetchStep(s, depth).value, Fetching(s, n);
      && s' == s.(nextPc := s'.nextPc, irPipe := s'.irPipe, pcToDecode := s'.pcToDecode, fetch := s'.fetch)
      && n' == n.(taken := n'.taken)
  {
  }

  lemma FrontKeepsToken(c: Cpu, s: State, s': State, n: Progress, n': Progress)
    requires TokenOk(c, s, n) && s'.decode == s.decode && n' == n.(taken := n'.taken)
    ensures TokenOk(c, s', n')
  {
    hide After, IrAt, Straight;
  }

  lemma FetchKeepsInv(c: Cpu, s: State, depth: PipeName -> nat, n: Progress)
    requires Inv(c, s, n) && FetchStep(s, depth).Some? && FetchOk(c, s, n)
    ensures Inv(c, FetchStep(s, depth).value, Fetching(s, n))
  {
    hide Step, Execute, After, PipesOk, HandsOk, MachineOk, StartOk, TokenOk, HaltOk, Conforming, IrAt, PcAt, FetchStep, Fetching, FetchOk;
    if s.nextPc != [] {
      NextPcHolds(c, s, n);
    }
    FetchFrame(s, depth, n);
    FetchKeepsPipes(c, s, depth, n);
    FetchKeepsHands(c, s, depth, n);
    FrontKeepsMachine(c, s, FetchStep(s, depth).value, n, Fetching(s, n));
    FrontKeepsToken(c, s, FetchStep(s, depth).value, n, Fetching(s, n));
  }

  lemma NextPcHolds(c: Cpu, s: State, n: Progress)
    requires PipesOk(c, s, n) && s.nextPc != []
    ensures s.nextPc[0] == PcAt(c, n.taken)
  {
    Pop(c, PcStream, s.nextPc, n.taken, n.issued);
  }

  /** No pipe holds more than its depth. */
  ghost predicate Fits(s: State, depth: PipeName -> nat) {
    && |s.irPipe| <= depth(IrPipe) && |s.operands| == OPERANDS
    && forall i :: 0 <= i < OPERANDS ==> |s.operands[i]| <= depth(Operand(i))
  }

  lemma NotTooFarAhead(c: Cpu, s: State, depth: PipeName -> nat, n: Progress)
    requires Inv(c, s, n) && Fits(s, depth) && s.fetch.GotPc?
    ensures n.taken - 1 <= n.executed + Window(depth)
  {
    hide Step, Execute, OperandValue, After, IrAt, PcAt, MachineOk, StartOk, HaltOk;
    assert Stretch(c, PcStream, s.nextPc, n.taken, n.issued);
    var i := ShallowestIsOne(depth, OPERANDS - 1);
    assert Stretch(c, OperandStream(i), s.operands[i], OperandRead(s, n, i), OperandWritten(s, n, i));
  }

  lemma {:induction false} ShallowestIsOne(depth: PipeName -> nat, n: nat) returns (i: nat)
    ensures i <= n && depth(Operand(i)) == Shallowest(depth, n)
  {
    if n == 0 || depth(Operand(n)) == Shallowest(depth, n) {
      i := n;
    } else {
      i := ShallowestIsOne(depth, n - 1);
    }
  }

  /** Fetch, however far ahead of execute, reads the word the sequential machine will execute. */
  /** Between execute and fetch there are only straight instructions. */
  lemma StraightAhead(c: Cpu, s: State, n: Progress)
    requires Inv(c, s, n) && s.fetch.GotPc?
    ensures n.taken > 0 && n.executed <= n.taken - 1 && StraightLine(c, n.executed, n.taken - 1)
    ensures !After(c, n.executed).halt
  {
    hide Step, Execute, OperandValue, After, MachineOk, HaltOk, StartOk, Straight, IrAt, PcAt;
    assert Stretch(c, PcStream, s.nextPc, n.taken, n.issued);
    assert Stretch(c, IrStream, s.irPipe, IrRead(s, n), IrWritten(s, n));
  }

  lemma FetchReadsItsWord(c: Cpu, s: State, depth: PipeName -> nat, n: Progress)
    requires TameWithin(c, Window(depth)) && Inv(c, s, n) && Fits(s, depth)
    ensures FetchOk(c, s, n)
  {
    hide Step, Execute, OperandValue, After, PipesOk, TokenOk, HaltOk, StartOk, RegistersAgree, Output, Window, TameWithin,
         StraightLine, IrAt, PcAt, Fits;
    if s.fetch.GotPc? {
      StraightAhead(c, s, n);
      NotTooFarAhead(c, s, depth, n);
      PrefetchStable(c, n.executed, n.taken - 1, Window(depth));
    }
  }

  function Decoding(s: State, n: Progress): Progress {
    match s.decode
    case Deciding(ir, _) => if Straight(ir) then n.(issued := n.issued + 1) else n
    case Sending(k, _, _) => if k + 1 == OPERANDS then n.(decoded := n.decoded + 1) else n
    case _ => n
  }

  /** The instruction in decode's hand has been issued, is not halted past, and is the last one issued. */
  lemma DecodeHoldsLast(c: Cpu, s: State, n: Progress)
    requires Conforming(c) && Inv(c, s, n) && s.decode.Deciding?
    ensures n.decoded + 1 == n.issued
    ensures !After(c, n.executed).halt && !After(c, n.decoded).halt
    ensures Straight(IrAt(c, n.decoded)) ==> PcAt(c, n.issued) == Plus(PcAt(c, n.decoded), 1)
  {
    hide Step, Execute, OperandValue, After, PipesOk, HandsOk, MachineOk, StartOk, HaltOk, TokenOk, Conforming, IrAt, PcAt, Straight,
         StraightLine;
    LastIssued(c, s, n);
    StraightLineRuns(c, n.executed, n.decoded);
    if Straight(IrAt(c, n.decoded)) {
      StraightAdvances(c, n.decoded);
    }
  }

  lemma LastIssued(c: Cpu, s: State, n: Progress)
    requires Inv(c, s, n) && s.decode.Deciding?
    ensures n.decoded + 1 == n.issued && !After(c, n.executed).halt
    ensures n.executed <= n.decoded && StraightLine(c, n.executed, n.decoded)
  {
    hide Step, Execute, OperandValue, After, MachineOk, StartOk, HaltOk, HandsOk, IrAt, PcAt, Straight;
    assert Stretch(c, PcStream, s.nextPc, n.taken, n.issued);
    assert Stretch(c, IrStream, s.irPipe, IrRead(s, n), IrWritten(s, n));
  }

  lemma DecodeKeepsPipes(c: Cpu, s: State, depth: PipeName -> nat, n: Progress)
    requires PipesOk(c, s, n) && HandsOk(c, s, n) && DecodeStep(s, depth).Some?
    requires s.decode.Deciding? && Straight(s.decode.ir) ==> PcAt(c, n.issued) == Plus(s.decode.pc, 1)
    ensures PipesOk(c, DecodeStep(s, depth).value, Decoding(s, n))
  {
    hide Step, Execute, OperandValue, After, Stretch;
    match s.decode
    case DecodeIdle => Pop(c, IrStream, s.irPipe, IrRead(s, n), IrWritten(s, n));
    case GotIr(_) => Pop(c, PcStream, s.pcToDecode, PcRead(s, n), PcWritten(s, n));
    case Deciding(_, _) => Push(c, PcStream, s.nextPc, n.taken, n.issued);
    case Sending(k, _, _) =>
      Push(c, OperandStream(k), s.operands[k], OperandRead(s, n, k), OperandWritten(s, n, k));
  }

  lemma DecodeKeepsHands(c: Cpu, s: State, depth: PipeName -> nat, n: Progress)
    requires PipesOk(c, s, n) && HandsOk(c, s, n) && DecodeStep(s, depth).Some?
    ensures HandsOk(c, DecodeStep(s, depth).value, Decoding(s, n))
  {
    hide Step, Execute, OperandValue, After;
  }

  lemma DecodeKeepsToken(c: Cpu, s: State, depth: PipeName -> nat, n: Progress)
    requires TokenOk(c, s, n) && |s.operands| == OPERANDS && DecodeStep(s, depth).Some?
    requires s.decode.Deciding? ==> n.decoded + 1 == n.issued && !After(c, n.executed).halt && s.decode.ir == IrAt(c, n.decoded)
    ensures TokenOk(c, DecodeStep(s, depth).value, Decoding(s, n))
  {
    hide Step, Execute, OperandValue, After;
  }

  lemma DecodeFrame(s: State, depth: PipeName -> nat, n: Progress)
    requires |s.operands| == OPERANDS && DecodeStep(s, depth).Some?
    ensures var s', n' := DecodeStep(s, depth).value, Decoding(s, n);
      && s' == s.(nextPc := s'.nextPc, irPipe := s'.irPipe, pcToDecode := s'.pcToDecode, operands := s'.operands, decode := s'.decode)
      && n'.executed == n.executed && n'.issued == if s.decode.Deciding? && Straight(s.decode.ir) then n.issued + 1 else n.issued
  {
    hide OperandValue, Straight;
  }

  lemma DecodeHand(c: Cpu, s: State, n: Progress)
    requires HandsOk(c, s, n) && s.decode.Deciding?
    ensures s.decode.ir == IrAt(c, n.decoded) && s.decode.pc == PcAt(c, n.decoded)
  {
    hide IrAt, PcAt;
  }

  lemma DecodeKeepsInv(c: Cpu, s: State, depth: PipeName -> nat, n: Progress)
    requires Conforming(c) && Inv(c, s, n) && DecodeStep(s, depth).Some?
    ensures Inv(c, DecodeStep(s, depth).value, Decoding(s, n))
  {
    assert |s.operands| == OPERANDS;
    hide Step, Execute, After, PipesOk, HandsOk, TokenOk, MachineOk, StartOk, HaltOk, Straight, Conforming, IrAt, PcAt,
         DecodeStep, Decoding;
    if s.decode.Deciding? {
      DecodeHoldsLast(c, s, n);
      DecodeHand(c, s, n);
    }
    DecodeFrame(s, depth, n);
    DecodeKeepsPipes(c, s, depth, n);
    DecodeKeepsHands(c, s, depth, n);
    DecodeKeepsToken(c, s, depth, n);
    FrontKeepsMachine(c, s, DecodeStep(s, depth).value, n, Decoding(s, n));
  }

  function Executing(s: State, n: Progress): Progress {
    match s.exec
    case Halting(_) => n.(executed := n.executed + 1)
    case Reading(vals) =>
      if |vals| < OPERANDS || vals[0] == 0 then n
      else if vals[0] in {8, 9, 10} then n.(executed := n.executed + 1, issued := n.issued + 1)
      else n.(executed := n.executed + 1)
  }

  /** All seven values of the instruction are in execute's hand. */
  ghost predicate Ready(s: State) { |s.exec.vals| == OPERANDS }

  /** An instruction in execute's hand is not halted past and is all in. */
  lemma ExecHoldsLive(c: Cpu, s: State, n: Progress)
    requires Conforming(c) && Inv(c, s, n) && Ready(s)
    ensures n.executed < n.decoded && !After(c, n.executed).halt && OperandsOk(IrAt(c, n.executed))
    ensures !Straight(IrAt(c, n.executed)) ==> n.issued == n.executed + 1 == Decided(s, n)
  {
    hide Step, Execute, OperandValue, After;
    assert Stretch(c, OperandStream(6), s.operands[6], OperandRead(s, n, 6), OperandWritten(s, n, 6));
  }

  /** What the seven values are. */
  lemma ValuesRead(c: Cpu, s: State, n: Progress)
    requires HandsOk(c, s, n) && Ready(s)
    ensures var v, ir := s.exec.vals, IrAt(c, n.executed);
            v == [Op(ir), R1(ir), R2(ir), R3(ir), Imm(ir), Wrap(SignMagnitude(Imm(ir))), PcAt(c, n.executed)]
  {
    hide Step, Execute, After;
    var v := s.exec.vals;
    forall i | 0 <= i < OPERANDS ensures v[i] == OperandValue(i, IrAt(c, n.executed), PcAt(c, n.executed)) {
      assert v[i] == At(c, OperandStream(i), n.executed);
    }
  }

  /** Execute is about to perform, on the same memory and registers, the instruction ref is about to perform. */
  ghost predicate SameInstruction(s: State, ref: Cpu) {
    && s.exec.Reading? && Ready(s)
    && !ref.halt && ref.reg[0] == 0 && s.reg[0] == 0 && s.mem == ref.mem && RegistersAgree(s, ref)
    && OperandsOk(Fetched(ref)) && Op(Fetched(ref)) != 0
    && var v, ir := s.exec.vals, Fetched(ref);
       v == [Op(ir), R1(ir), R2(ir), R3(ir), Imm(ir), Wrap(SignMagnitude(Imm(ir))), ref.reg[PC]]
  }

  /** The pipelined offset counts from the instruction's own pc, the sequential one from the pc already
      moved on; both lead to the same word. */
  lemma BranchTargetsAgree(pc: Word, reg: int, imm: Word)
    ensures Plus(reg, Plus(pc, Wrap(SignMagnitude(imm)))) == Plus(Plus(pc, 1), reg + (SignMagnitude(imm) - 1))
    ensures Plus(pc, Wrap(SignMagnitude(imm))) == Plus(Plus(pc, 1), SignMagnitude(imm) - 1)
  {
  }

  // One instruction on both machines leaves the same memory and registers, writes the same output, and
  // a control instruction sends the pc at which the sequential machine goes on.
  lemma DispatchSimulates(s: State, ref: Cpu, depth: PipeName -> nat)
    requires SameInstruction(s, ref) && Dispatch(s, s.exec.vals, depth).Some?
    ensures var s' := Dispatch(s, s.exec.vals, depth).value;
            s'.mem == Step(ref).mem && RegistersAgree(s', Step(ref)) && !Step(ref).halt
  {
  }

  lemma DispatchOutputs(s: State, ref: Cpu, depth: PipeName -> nat)
    requires SameInstruction(s, ref) && Dispatch(s, s.exec.vals, depth).Some?
    ensures var s' := Dispatch(s, s.exec.vals, depth).value;
            ref.out <= Step(ref).out && s'.outPort == s.outPort + Step(ref).out[|ref.out|..]
  {
    if Op(Fetched(ref)) != 14 {
      assert Step(ref).out == ref.out;
    }
  }

  lemma BranchOperand(s: State, ref: Cpu)
    requires SameInstruction(s, ref) && Op(Fetched(ref)) in {9, 10}
    ensures R1(Fetched(ref)) < PC && RegistersAgree(s, ref)
  {
  }

  lemma BranchIssues(s: State, ref: Cpu, depth: PipeName -> nat)
    requires SameInstruction(s, ref) && Dispatch(s, s.exec.vals, depth).Some? && Op(Fetched(ref)) in {9, 10}
    ensures Dispatch(s, s.exec.vals, depth).value.nextPc == s.nextPc + [Step(ref).reg[PC]]
  {
    hide LoadLow, LoadHigh, Plus, Minus, SignMagnitude, Op, R1, R2, R3, Imm, RegistersAgree, OperandsOk, Wrap;
    assert R1(Fetched(ref)) < PC && RegistersAgree(s, ref) by { BranchOperand(s, ref); }
    var ir, pc := Fetched(ref), ref.reg[PC];
    BranchTargetsAgree(pc, s.reg[R1(ir)], Imm(ir));
    BranchRegisterAgrees(s, ref, R1(ir), Plus(pc, 1));
  }

  lemma JumpIssues(s: State, ref: Cpu, depth: PipeName -> nat)
    requires SameInstruction(s, ref) && Dispatch(s, s.exec.vals, depth).Some? && Op(Fetched(ref)) == 8
    ensures Dispatch(s, s.exec.vals, depth).value.nextPc == s.nextPc + [Step(ref).reg[PC]]
  {
    hide LoadLow, LoadHigh, Plus, Minus, SignMagnitude, Op, R1, R2, R3, Imm;
  }

  lemma DispatchIssues(s: State, ref: Cpu, depth: PipeName -> nat)
    requires SameInstruction(s, ref) && Dispatch(s, s.exec.vals, depth).Some?
    ensures var s' := Dispatch(s, s.exec.vals, depth).value;
            s'.nextPc == s.nextPc + if Op(Fetched(ref)) in {8, 9, 10} then [Step(ref).reg[PC]] else []
  {
    if Op(Fetched(ref)) in {9, 10} {
      hide *;
      BranchIssues(s, ref, depth);
    } else if Op(Fetched(ref)) == 8 {
      hide *;
      JumpIssues(s, ref, depth);
    } else {
      hide Step, Execute, LoadLow, LoadHigh, Plus, Minus, SignMagnitude, Op, R1, R2, R3, Imm;
      assert Dispatch(s, s.exec.vals, depth).value.nextPc == s.nextPc;
    }
  }

  lemma BranchRegisterAgrees(s: State, ref: Cpu, r: Word, next: Word)
    requires r < PC && RegistersAgree(s, ref) && s.reg[0] == ref.reg[0] == 0
    ensures ref.reg[PC := next][r] == s.reg[r]
  {
  }

  /** What performing an instruction leaves alone. */
  ghost predicate OnlyExecMoved(s: State, s': State) {
    && s'.irPipe == s.irPipe && s'.pcToDecode == s.pcToDecode && s'.operands == s.operands
    && s'.run == s.run && s'.fetch == s.fetch && s'.decode == s.decode
    && s'.startPc == s.startPc && s'.received == s.received
    && (s'.exec == Reading([]) ==> s'.haltPort == s.haltPort) && s'.haltsRead == s.haltsRead
  }

  lemma DispatchFrame(s: State, depth: PipeName -> nat)
    requires |s.operands| == OPERANDS && Ready(s) && ExecStep(s, depth).Some?
    ensures var s' := ExecStep(s, depth).value;
            && OnlyExecMoved(s, s')
            && s'.exec == if s.exec.Reading? && s.exec.vals[0] == 0 then Halting(s.exec.vals) else Reading([])
  {
  }

  lemma CompletionKeepsPipes(c: Cpu, s: State, s': State, n: Progress, n': Progress)
    requires PipesOk(c, s, n) && Ready(s) && OnlyExecMoved(s, s') && s'.exec == Reading([])
    requires n' == n.(executed := n.executed + 1, issued := n'.issued) && n.issued <= n'.issued <= n.issued + 1
    requires s'.nextPc == if n'.issued > n.issued then s.nextPc + [PcAt(c, n.issued)] else s.nextPc
    ensures PipesOk(c, s', n')
  {
    hide Step, Execute, OperandValue, After, Stretch;
    Push(c, PcStream, s.nextPc, n.taken, n.issued);
  }

  lemma ReadKeepsPipes(c: Cpu, s: State, depth: PipeName -> nat, n: Progress)
    requires PipesOk(c, s, n) && HandsOk(c, s, n) && !Ready(s) && ExecStep(s, depth).Some?
    ensures PipesOk(c, ExecStep(s, depth).value, n)
  {
    hide Step, Execute, OperandValue, After, Stretch, Dispatch;
    var k := |s.exec.vals|;
    Pop(c, OperandStream(k), s.operands[k], OperandRead(s, n, k), OperandWritten(s, n, k));
  }

  lemma ReadKeepsHands(c: Cpu, s: State, depth: PipeName -> nat, n: Progress)
    requires PipesOk(c, s, n) && HandsOk(c, s, n) && !Ready(s) && ExecStep(s, depth).Some?
    ensures HandsOk(c, ExecStep(s, depth).value, n)
  {
    hide Step, Execute, OperandValue, After, Dispatch, At;
    var k := |s.exec.vals|;
    assert Stretch(c, OperandStream(k), s.operands[k], OperandRead(s, n, k), OperandWritten(s, n, k));
  }

  /** execute reads one more operand. */
  lemma ReadFrame(s: State, depth: PipeName -> nat)
    requires |s.operands| == OPERANDS && !Ready(s) && |s.exec.vals| <= OPERANDS && ExecStep(s, depth).Some?
    ensures var s' := ExecStep(s, depth).value;
      && s.exec.Reading? && s'.exec.Reading? && s'.exec.vals != []
      && s' == s.(reg := s.reg[0 := 0], operands := s'.operands, exec := s'.exec)
  {
    hide Dispatch;
  }

  lemma ReadKeepsMachine(c: Cpu, s: State, s': State, n: Progress)
    requires MachineOk(c, s, n) && StartOk(c, s, n) && TokenOk(c, s, n) && HaltOk(c, s, n)
    requires s.exec.Reading? && s'.exec.Reading? && s' == s.(reg := s.reg[0 := 0], operands := s'.operands, exec := s'.exec)
    ensures MachineOk(c, s', n) && StartOk(c, s', n) && TokenOk(c, s', n) && HaltOk(c, s', n)
  {
    SameAnnounced(s, s');
    hide Step, Execute, After, Announced, IrAt, Straight;
  }

  lemma ReadKeepsInv(c: Cpu, s: State, depth: PipeName -> nat, n: Progress)
    requires Conforming(c) && Inv(c, s, n) && !Ready(s) && ExecStep(s, depth).Some?
    ensures Inv(c, ExecStep(s, depth).value, n)
  {
    assert |s.operands| == OPERANDS && |s.exec.vals| <= OPERANDS;
    hide Step, Execute, After, PipesOk, HandsOk, MachineOk, StartOk, TokenOk, HaltOk, Conforming, ExecStep;
    ReadFrame(s, depth);
    ReadKeepsPipes(c, s, depth, n);
    ReadKeepsHands(c, s, depth, n);
    ReadKeepsMachine(c, s, ExecStep(s, depth).value, n);
  }

  /** The token passes on: to the next instruction issued by execute, or, after halt, to nobody. */
  lemma CompletionKeepsToken(c: Cpu, s: State, s': State, n: Progress, n': Progress)
    requires TokenOk(c, s, n) && s'.decode == s.decode && !After(c, n.executed).halt && n.executed < n.decoded
    requires n' == n.(executed := n.executed + 1, issued := n'.issued)
    requires n'.issued == if Op(IrAt(c, n.executed)) in {8, 9, 10} then n.issued + 1 else n.issued
    requires !Straight(IrAt(c, n.executed)) ==> n.issued == n.executed + 1 == Decided(s, n)
    requires After(c, n.executed + 1).halt <==> Op(IrAt(c, n.executed)) == 0
    ensures TokenOk(c, s', n')
  {
    hide Step, Execute, OperandValue, After;
  }

  /** The machine s' is where the sequential machine is one instruction on from n.executed. */
  ghost predicate Completed(c: Cpu, s: State, s': State, n: Progress) {
    var ref, ref' := After(c, n.executed), After(c, n.executed + 1);
    && s'.mem == ref'.mem && (!ref'.halt ==> RegistersAgree(s', ref'))
    && (ref'.halt <==> Op(Fetched(ref)) == 0) && (s.exec.Halting? <==> Op(Fetched(ref)) == 0)
    && ref.out <= ref'.out && s'.outPort == s.outPort + ref'.out[|ref.out|..]
    && s'.nextPc == s.nextPc + if Op(Fetched(ref)) in {8, 9, 10} then [ref'.reg[PC]] else []
  }

  lemma CompletionKeepsMachine(c: Cpu, s: State, s': State, n: Progress, n': Progress)
    requires MachineOk(c, s, n) && n'.executed == n.executed + 1 && !After(c, n.executed).halt
    requires Completed(c, s, s', n) && s'.received == s.received && s'.exec == Reading([])
    ensures MachineOk(c, s', n')
  {
    hide Step, Execute, After, RegistersAgree;
    var ref, ref' := After(c, n.executed), After(c, n'.executed);
    assert s'.received + s'.outPort == (s.received + s.outPort) + ref'.out[|ref.out|..];
    assert ref.out + ref'.out[|ref.out|..] == ref'.out;
  }

  function NextProgress(c: Cpu, n: Progress): Progress {
    n.(executed := n.executed + 1,
       issued := if Op(IrAt(c, n.executed)) in {8, 9, 10} then n.issued + 1 else n.issued)
  }

  lemma CompletionKeepsHands(c: Cpu, s: State, s': State, n: Progress, n': Progress)
    requires HandsOk(c, s, n) && StartOk(c, s, n) && HaltOk(c, s, n)
    requires OnlyExecMoved(s, s') && s'.exec == Reading([])
    requires n' == n.(executed := n'.executed, issued := n'.issued) && 0 < n.issued <= n'.issued
    requires !After(c, n.executed).halt && (s.exec.Halting? <==> After(c, n'.executed).halt)
    ensures HandsOk(c, s', n') && StartOk(c, s', n') && HaltOk(c, s', n')
  {
    SameAnnounced(s, s');
    hide Step, Execute, OperandValue, After, Announced;
  }

  lemma CompletionFacts(c: Cpu, s: State, s': State, n: Progress)
    requires Conforming(c) && Inv(c, s, n) && Ready(s) && OnlyExecMoved(s, s') && Completed(c, s, s', n)
    ensures n.executed < n.decoded && 0 < n.issued && !After(c, n.executed).halt && s'.decode == s.decode
    ensures s'.received == s.received
    ensures !Straight(IrAt(c, n.executed)) ==> n.issued == n.executed + 1 == Decided(s, n)
    ensures After(c, n.executed + 1).halt <==> Op(IrAt(c, n.executed)) == 0
    ensures s.exec.Halting? <==> Op(IrAt(c, n.executed)) == 0
    ensures s'.nextPc == if Op(IrAt(c, n.executed)) in {8, 9, 10} then s.nextPc + [PcAt(c, n.issued)] else s.nextPc
  {
    hide Step, Execute, After, OperandValue, PipesOk, HandsOk, MachineOk, StartOk, HaltOk, TokenOk, Conforming, Op, Straight,
         Decided, RegistersAgree;
    ExecHoldsLive(c, s, n);
    CompletedIssues(c, s, s', n);
    SomeIssued(c, s, n);
  }

  lemma SomeIssued(c: Cpu, s: State, n: Progress)
    requires TokenOk(c, s, n) && n.executed < n.decoded
    ensures n.issued > 0
  {
    hide After, IrAt, Straight;
  }

  lemma CompletedIssues(c: Cpu, s: State, s': State, n: Progress)
    requires Completed(c, s, s', n) && Conforming(c) && Inv(c, s, n) && Ready(s)
    ensures s'.nextPc == if Op(IrAt(c, n.executed)) in {8, 9, 10} then s.nextPc + [PcAt(c, n.issued)] else s.nextPc
  {
    hide Step, Execute, After, Inv, Conforming, Op, RegistersAgree, Straight;
    assert s.nextPc + [] == s.nextPc;
    ExecHoldsLive(c, s, n);
    ControlNotStraight(IrAt(c, n.executed));
  }

  lemma ControlNotStraight(ir: Word)
    ensures Op(ir) in {8, 9, 10} ==> !Straight(ir)
  {
  }

  lemma CompletionKeepsInv(c: Cpu, s: State, s': State, n: Progress)
    requires Conforming(c) && Inv(c, s, n) && Ready(s) && OnlyExecMoved(s, s') && s'.exec == Reading([])
    requires Completed(c, s, s', n)
    ensures Inv(c, s', NextProgress(c, n))
  {
    var n' := NextProgress(c, n);
    CompletionFacts(c, s, s', n);
    hide Step, Execute, After, OperandValue, PipesOk, HandsOk, MachineOk, StartOk, HaltOk, TokenOk, Conforming,
         Completed, OnlyExecMoved, IrAt, PcAt, Op, Straight, Decided;
    CompletionKeepsMachine(c, s, s', n, n');
    CompletionKeepsToken(c, s, s', n, n');
    CompletionKeepsHands(c, s, s', n, n');
    CompletionKeepsPipes(c, s, s', n, n');
  }

  /** The instruction in execute's hand, performed on both machines. */
  lemma DispatchCompletes(c: Cpu, s: State, depth: PipeName -> nat, n: Progress)
    requires Conforming(c) && Inv(c, s, n) && Ready(s) && s.exec.Reading? && ExecStep(s, depth).Some?
    requires s.exec.vals[0] != 0
    ensures Completed(c, s, ExecStep(s, depth).value, n)
  {
    var ref := After(c, n.executed);
    assert ref.reg[0] == 0 && SameInstruction(s, ref) by {
      ExecHoldsLive(c, s, n);
      ValuesRead(c, s, n);
      ZeroStaysZero(c, n.executed);
    }
    assert Op(Fetched(ref)) != 0;
    assert ExecStep(s, depth) == Dispatch(s, s.exec.vals, depth);
    assert After(c, n.executed + 1) == Step(ref);
    DispatchSimulates(s, ref, depth);
    DispatchOutputs(s, ref, depth);
    DispatchIssues(s, ref, depth);
    hide Dispatch, ExecStep, Inv, SameInstruction, Step, After, Execute;
  }

  /** After the halt port is written, the halt case falls through into add. */
  lemma HaltCompletes(c: Cpu, s: State, depth: PipeName -> nat, n: Progress)
    requires Conforming(c) && Inv(c, s, n) && Ready(s) && s.exec.Halting?
    ensures ExecStep(s, depth).Some? && Completed(c, s, ExecStep(s, depth).value, n)
  {
    var ref := After(c, n.executed);
    ExecHoldsLive(c, s, n);
    assert After(c, n.executed + 1) == ref.(halt := true, reg := ref.reg[PC := Plus(ref.reg[PC], 1)]);
  }

  lemma HaltWriteStep(s: State, depth: PipeName -> nat)
    requires Ready(s) && |s.operands| == OPERANDS && s.exec.Reading? && s.exec.vals[0] == 0 && ExecStep(s, depth).Some?
    ensures ExecStep(s, depth).value == s.(haltPort := s.haltPort + [1], exec := Halting(s.exec.vals))
  {
  }

  lemma HaltAnnounced(s: State, s': State)
    requires s'.haltsRead == s.haltsRead && s'.haltPort == s.haltPort + [1]
    ensures Announced(s') == Announced(s) + [1]
  {
  }

  lemma HaltWriteKeepsInv(c: Cpu, s: State, depth: PipeName -> nat, n: Progress)
    requires Conforming(c) && Inv(c, s, n) && Ready(s) && s.exec.Reading? && ExecStep(s, depth).Some?
    requires s.exec.vals[0] == 0
    ensures Inv(c, ExecStep(s, depth).value, n)
  {
    var s' := ExecStep(s, depth).value;
    HaltWriteStep(s, depth);
    HaltAnnounced(s, s');
    ExecHoldsLive(c, s, n);
    hide Step, Execute, After, OperandValue, Stretch, StoresSafe, RegistersAgree, ExecStep, Dispatch, Announced, Conforming, Straight;
    HaltWriteKeepsHands(c, s, s', n);
    hide HandsOk, IrAt, PcAt;
  }

  lemma HaltWriteKeepsHands(c: Cpu, s: State, s': State, n: Progress)
    requires HandsOk(c, s, n) && Ready(s) && s.exec.vals[0] == 0 && s' == s.(haltPort := s'.haltPort, exec := Halting(s.exec.vals))
    ensures HandsOk(c, s', n)
  {
    ValuesRead(c, s, n);
    hide Step, Execute, After, OperandValue;
  }

  lemma ExecKeepsInv(c: Cpu, s: State, depth: PipeName -> nat, n: Progress)
    requires Conforming(c) && Inv(c, s, n) && ExecStep(s, depth).Some?
    ensures Inv(c, ExecStep(s, depth).value, Executing(s, n))
  {
    if !Ready(s) {
      ReadKeepsInv(c, s, depth, n);
    } else if s.exec.Reading? && s.exec.vals[0] == 0 {
      HaltWriteKeepsInv(c, s, depth, n);
    } else {
      DispatchFrame(s, depth);
      if s.exec.Halting? {
        HaltCompletes(c, s, depth, n);
      } else {
        DispatchCompletes(c, s, depth, n);
      }
      ValuesRead(c, s, n);
      hide Dispatch, ExecStep, Inv, Completed, IrAt, Conforming;
      CompletionKeepsInv(c, s, ExecStep(s, depth).value, n);
    }
  }

  function Running(s: State, n: Progress): Progress {
    if s.run.HoldingStart? then n.(issued := n.issued + 1) else n
  }

  lemma SameAnnounced(s: State, s': State)
    requires s'.haltsRead == s.haltsRead && s'.haltPort == s.haltPort
    ensures Announced(s') == Announced(s)
  {
  }

  lemma RunFrame(s: State, depth: PipeName -> nat)
    requires RunStep(s, depth).Some?
    ensures var s' := RunStep(s, depth).value;
      && s' == s.(reg := s'.reg, startPc := s'.startPc, nextPc := s'.nextPc, run := s'.run)
      && (forall i :: 0 <= i < PC ==> s'.reg[i] == s.reg[i])
      && (!s.run.HoldingStart? ==> s'.nextPc == s.nextPc)
      && (s.run.HoldingStart? ==> s'.nextPc == s.nextPc + [s.run.pc])
  {
  }

  lemma RunKeepsPipes(c: Cpu, s: State, s': State, n: Progress, n': Progress)
    requires PipesOk(c, s, n) && s' == s.(reg := s'.reg, startPc := s'.startPc, nextPc := s'.nextPc, run := s'.run)
    requires n' == n.(issued := n'.issued)
    requires if n'.issued == n.issued then s'.nextPc == s.nextPc else n'.issued == n.issued + 1 && s'.nextPc == s.nextPc + [PcAt(c, n.issued)]
    ensures PipesOk(c, s', n')
  {
    hide Step, Execute, OperandValue, After, Stretch, IrAt, PcAt, At;
    if n'.issued > n.issued {
      PushPc(c, s.nextPc, n.taken, n.issued);
    }
  }

  lemma PushPc(c: Cpu, q: seq<Word>, lo: int, hi: nat)
    requires Stretch(c, PcStream, q, lo, hi)
    ensures Stretch(c, PcStream, q + [PcAt(c, hi)], lo, hi + 1)
  {
    hide PcAt;
    Push(c, PcStream, q, lo, hi);
  }

  lemma RunKeepsMachine(c: Cpu, s: State, s': State, n: Progress, n': Progress)
    requires MachineOk(c, s, n) && HandsOk(c, s, n) && HaltOk(c, s, n)
    requires s' == s.(reg := s'.reg, startPc := s'.startPc, nextPc := s'.nextPc, run := s'.run)
    requires forall i :: 0 <= i < PC ==> s'.reg[i] == s.reg[i]
    requires n' == n.(issued := n'.issued)
    ensures MachineOk(c, s', n') && HandsOk(c, s', n') && HaltOk(c, s', n')
  {
    SameAnnounced(s, s');
    hide Step, Execute, OperandValue, After, Announced, IrAt, PcAt, At;
  }

  lemma RunKeepsStart(c: Cpu, s: State, depth: PipeName -> nat, n: Progress)
    requires StartOk(c, s, n) && RunStep(s, depth).Some?
    ensures StartOk(c, RunStep(s, depth).value, Running(s, n))
    ensures s.run.HoldingStart? ==> n.issued == 0 && s.run.pc == PcAt(c, 0)
  {
    hide PcAt;
  }

  lemma RunKeepsToken(c: Cpu, s: State, s': State, n: Progress, n': Progress)
    requires Conforming(c) && TokenOk(c, s, n) && s'.decode == s.decode
    requires n' == n || (n.issued == 0 && n' == n.(issued := 1))
    ensures TokenOk(c, s', n')
  {
    assert !After(c, 0).halt;
    hide Step, Execute, After, IrAt, Straight;
  }

  lemma RunKeepsInv(c: Cpu, s: State, depth: PipeName -> nat, n: Progress)
    requires Conforming(c) && Inv(c, s, n) && RunStep(s, depth).Some?
    ensures Inv(c, RunStep(s, depth).value, Running(s, n))
  {
    var s', n' := RunStep(s, depth).value, Running(s, n);
    hide Step, Execute, After, PipesOk, HandsOk, MachineOk, StartOk, TokenOk, HaltOk, Conforming, IrAt, PcAt, RunStep;
    RunFrame(s, depth);
    RunKeepsStart(c, s, depth, n);
    RunKeepsPipes(c, s, s', n, n');
    RunKeepsMachine(c, s, s', n, n');
    RunKeepsToken(c, s, s', n, n');
  }

  /** Reading out_port or the halt port moves no thread. */
  lemma ReadersKeepInv(c: Cpu, s: State, s': State, n: Progress)
    requires Inv(c, s, n) && s' == s.(received := s'.received, outPort := s'.outPort, haltPort := s'.haltPort, haltsRead := s'.haltsRead)
    requires Output(s') == Output(s) && Announced(s') == Announced(s)
    ensures Inv(c, s', n)
  {
    hide Step, Execute, OperandValue, After, Stretch, Output, IrAt, PcAt, Straight;
  }

  function Advance(s: State, a: Agent, n: Progress): Progress {
    match a
    case RunThread => Running(s, n)
    case FetchThread => Fetching(s, n)
    case DecodeThread => Decoding(s, n)
    case ExecThread => Executing(s, n)
    case OutReader => n
    case HaltReader => n
  }

  lemma OutReaderKeepsInv(c: Cpu, s: State, n: Progress)
    requires Inv(c, s, n) && s.outPort != []
    ensures Inv(c, OutReaderStep(s).value, n)
  {
    hide Inv;
    assert Output(OutReaderStep(s).value) == Output(s);
    hide Output;
    ReadersKeepInv(c, s, OutReaderStep(s).value, n);
  }

  lemma HaltReaderKeepsInv(c: Cpu, s: State, n: Progress)
    requires Inv(c, s, n) && s.haltPort != []
    ensures Inv(c, HaltReaderStep(s).value, n)
  {
    hide Inv;
    assert Announced(HaltReaderStep(s).value) == Announced(s);
    hide Announced;
    ReadersKeepInv(c, s, HaltReaderStep(s).value, n);
  }

  lemma AgentKeepsInv(c: Cpu, s: State, a: Agent, depth: PipeName -> nat, n: Progress)
    requires Conforming(c) && Inv(c, s, n) && AgentStep(s, a, depth).Some?
    requires a == FetchThread ==> FetchOk(c, s, n)
    ensures Inv(c, AgentStep(s, a, depth).value, Advance(s, a, n))
  {
    hide Inv, Conforming, FetchOk, RunStep, FetchStep, DecodeStep, ExecStep, Running, Fetching, Decoding, Executing;
    match a
    case RunThread => RunKeepsInv(c, s, depth, n);
    case FetchThread => FetchKeepsInv(c, s, depth, n);
    case DecodeThread => DecodeKeepsInv(c, s, depth, n);
    case ExecThread => ExecKeepsInv(c, s, depth, n);
    case OutReader => OutReaderKeepsInv(c, s, n);
    case HaltReader => HaltReaderKeepsInv(c, s, n);
  }
}
