/** The four threads of optimized_processor (run, fetch, decode, execute) and its environment, as a state
    machine whose steps are single pipe reads, pipe writes and memory accesses. */
module Pipeline {
  import opened Isa

  datatype Option<+T> = None | Some(value: T)

  datatype PipeName = NextPc | IrPipe | PcToDecode | Operand(i: nat) | OutPort | HaltPort

  /** Where each thread stands in its loop, with its local variables. */
  datatype Run = Starting | AwaitingStart | HoldingStart(pc: Word)
  datatype Fetch = FetchIdle | GotPc(pc: Word) | Loaded(pc: Word, ir: Word) | SentIr(pc: Word)
  datatype Decode = DecodeIdle | GotIr(ir: Word) | Deciding(ir: Word, pc: Word) | Sending(n: nat, ir: Word, pc: Word)
  datatype Exec = Reading(vals: seq<Word>) | Halting(vals: seq<Word>)

  const OPERANDS := 7

  /** The shared reg and mem, the pipes, the threads, and what the environment has read from out_port and the halt port. */
  datatype State = State(
    reg: RegFile, mem: Memory,
    startPc: seq<Word>, nextPc: seq<Word>, irPipe: seq<Word>, pcToDecode: seq<Word>,
    operands: seq<seq<Word>>, outPort: seq<Word>, haltPort: seq<Word>,
    run: Run, fetch: Fetch, decode: Decode, exec: Exec,
    received: seq<Word>, haltsRead: seq<Word>)

  datatype Agent = RunThread | FetchThread | DecodeThread | ExecThread | OutReader | HaltReader

  function InitialState(reg: RegFile, mem: Memory, start: Word): State {
    State(reg, mem, [start], [], [], [], seq(OPERANDS, _ => []), [], [],
          Starting, FetchIdle, DecodeIdle, Reading([]), [], [])
  }

  /** The sequential machine with the same registers and memory, about to execute at the same pc. */
  function Reference(reg: RegFile, mem: Memory, start: Word): Cpu {
    Cpu(reg[PC := start], mem, false, [])
  }

  /** The seven values decode sends for one instruction, in the order in which it sends them. */
  function OperandValue(n: nat, ir: Word, pc: Word): Word {
    if n == 0 then Op(ir) else if n == 1 then R1(ir) else if n == 2 then R2(ir) else if n == 3 then R3(ir)
    else if n == 4 then Imm(ir) else if n == 5 then Wrap(SignMagnitude(Imm(ir))) else pc
  }

  function RunStep(s: State, depth: PipeName -> nat): Option<State> {
    match s.run
    case Starting => Some(s.(reg := s.reg[PC := 0], run := AwaitingStart))
    case AwaitingStart =>
      if s.startPc == [] then None else Some(s.(run := HoldingStart(s.startPc[0]), startPc := s.startPc[1..]))
    case HoldingStart(pc) =>
      if |s.nextPc| < depth(NextPc) then Some(s.(nextPc := s.nextPc + [pc], run := AwaitingStart)) else None
  }

  function FetchStep(s: State, depth: PipeName -> nat): Option<State> {
    match s.fetch
    case FetchIdle =>
      if s.nextPc == [] then None else Some(s.(fetch := GotPc(s.nextPc[0]), nextPc := s.nextPc[1..]))
    case GotPc(pc) => Some(s.(fetch := Loaded(pc, s.mem[pc])))
    case Loaded(pc, ir) =>
      if |s.irPipe| < depth(IrPipe) then Some(s.(irPipe := s.irPipe + [ir], fetch := SentIr(pc))) else None
    case SentIr(pc) =>
      if |s.pcToDecode| < depth(PcToDecode)
      then Some(s.(pcToDecode := s.pcToDecode + [pc], fetch := FetchIdle)) else None
  }

  function DecodeStep(s: State, depth: PipeName -> nat): Option<State>
    requires |s.operands| == OPERANDS
  {
    match s.decode
    case DecodeIdle =>
      if s.irPipe == [] then None else Some(s.(decode := GotIr(s.irPipe[0]), irPipe := s.irPipe[1..]))
    case GotIr(ir) =>
      if s.pcToDecode == [] then None
      else Some(s.(decode := Deciding(ir, s.pcToDecode[0]), pcToDecode := s.pcToDecode[1..]))
    case Deciding(ir, pc) =>
      if Op(ir) != 0 && (Op(ir) < 8 || Op(ir) > 10) then
        if |s.nextPc| < depth(NextPc)
        then Some(s.(nextPc := s.nextPc + [Plus(pc, 1)], decode := Sending(0, ir, pc))) else None
      else Some(s.(decode := Sending(0, ir, pc)))
    case Sending(n, ir, pc) =>
      if n < OPERANDS && |s.operands[n]| < depth(Operand(n))
      then Some(s.(operands := s.operands[n := s.operands[n] + [OperandValue(n, ir, pc)]],
                   decode := if n + 1 == OPERANDS then DecodeIdle else Sending(n + 1, ir, pc)))
      else None
  }

  // reg[r]; decode sends only register numbers below 16, so the guards never matter.
  function Reg(s: State, r: Word): Word { if r < 16 then s.reg[r] else 0 }
  function SetReg(s: State, r: Word, w: Word): State {
    if 0 < r < 16 then s.(reg := s.reg[r := w]) else s
  }

  function Next(s: State): State { s.(exec := Reading([])) }

  function SendNextPc(s: State, pc: Word, depth: PipeName -> nat): Option<State> {
    if |s.nextPc| < depth(NextPc) then Some(Next(s.(nextPc := s.nextPc + [pc]))) else None
  }

  /** The switch of execute, on the seven values read from the operand pipes. */
  function Dispatch(s: State, vals: seq<Word>, depth: PipeName -> nat): Option<State>
    requires |vals| == OPERANDS
  {
    var r1, r2, r3, imm, offs, pc := vals[1], vals[2], vals[3], vals[4], vals[5], vals[6];
    match vals[0]
    case 0 =>
      if |s.haltPort| < depth(HaltPort)
      then Some(s.(haltPort := s.haltPort + [1], exec := Halting(vals))) else None
    case 1 => Some(Next(SetReg(s, r1, Plus(Reg(s, r2), Reg(s, r3)))))
    case 2 => Some(Next(SetReg(s, r1, Minus(Reg(s, r2), Reg(s, r3)))))
    case 3 => Some(Next(SetReg(s, r1, s.mem[Plus(Reg(s, r2), Reg(s, r3))])))
    case 4 => Some(Next(s.(mem := s.mem[Plus(Reg(s, r2), Reg(s, r3)) := Reg(s, r1)])))
    case 5 => Some(Next(SetReg(s, r1, LoadLow(Reg(s, r1), imm))))
    case 6 => Some(Next(SetReg(s, r1, LoadHigh(Reg(s, r1), imm))))
    case 7 => Some(Next(SetReg(s, r1, Reg(s, r2))))
    case 8 => SendNextPc(s, s.mem[Plus(pc, 1)], depth)
    case 9 => SendNextPc(s, Plus(Reg(s, r1), Plus(pc, offs)), depth)
    case 10 => SendNextPc(s, if Reg(s, r1) != 0 then Plus(pc, 1) else Plus(pc, offs), depth)
    case 14 =>
      if |s.outPort| < depth(OutPort) then Some(Next(s.(outPort := s.outPort + [Reg(s, r1)]))) else None
    case _ => Some(Next(s))
  }

  /** reg[0] = 0 is done with the first read; only this thread uses reg. */
  function ExecStep(s: State, depth: PipeName -> nat): Option<State>
    requires |s.operands| == OPERANDS
  {
    match s.exec
    case Reading(vals) =>
      if |vals| < OPERANDS then
        var n := |vals|;
        if s.operands[n] == [] then None
        else Some(s.(reg := s.reg[0 := 0], exec := Reading(vals + [s.operands[n][0]]),
                     operands := s.operands[n := s.operands[n][1..]]))
      else if |vals| == OPERANDS then Dispatch(s, vals, depth)
      else None
    // The halt case falls through into add.
    case Halting(vals) =>
      if |vals| == OPERANDS
      then Some(Next(SetReg(s, vals[1], Plus(Reg(s, vals[2]), Reg(s, vals[3]))))) else None
  }

  function OutReaderStep(s: State): Option<State> {
    if s.outPort == [] then None
    else Some(s.(received := s.received + [s.outPort[0]], outPort := s.outPort[1..]))
  }

  function HaltReaderStep(s: State): Option<State> {
    if s.haltPort == [] then None else Some(s.(haltsRead := s.haltsRead + [s.haltPort[0]], haltPort := s.haltPort[1..]))
  }

  /** One step of one agent; None when it is blocked on an empty or a full pipe. */
  function AgentStep(s: State, a: Agent, depth: PipeName -> nat): (r: Option<State>)
    requires |s.operands| == OPERANDS
    ensures r.Some? ==> |r.value.operands| == OPERANDS
  {
    match a
    case RunThread => RunStep(s, depth)
    case FetchThread => FetchStep(s, depth)
    case DecodeThread => DecodeStep(s, depth)
    case ExecThread => ExecStep(s, depth)
    case OutReader => OutReaderStep(s)
    case HaltReader => HaltReaderStep(s)
  }

  /** The state after a schedule: one agent is named at each step, and nothing happens if it is blocked. */
  function Reached(s: State, schedule: seq<Agent>, depth: PipeName -> nat): (r: State)
    requires |s.operands| == OPERANDS
    ensures |r.operands| == OPERANDS
  {
    if schedule == [] then s
    else
      var t := Reached(s, schedule[..|schedule| - 1], depth);
      match AgentStep(t, schedule[|schedule| - 1], depth)
      case Some(u) => u
      case None => t
  }

  /** The least depth of the operand pipes up to number n. */
  function Shallowest(depth: PipeName -> nat, n: nat): (d: nat)
    ensures forall i: nat :: i <= n ==> d <= depth(Operand(i))
  {
    if n == 0 then depth(Operand(0))
    else
      var d := Shallowest(depth, n - 1);
      if depth(Operand(n)) < d then depth(Operand(n)) else d
  }

  /** How far fetch can get ahead of execute: the operands of one instruction are in execute's hand, those of others in
      the pipes, and one instruction is in decode's. */
  function Window(depth: PipeName -> nat): nat {
    Shallowest(depth, OPERANDS - 1) + 2
  }

  /** All that has ever been written to the halt port. */
  function Announced(s: State): seq<Word> {
    s.haltsRead + s.haltPort
  }

  /** All that has ever been written to out_port. */
  function Output(s: State): seq<Word> {
    s.received + s.outPort
  }
}
