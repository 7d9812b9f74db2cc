/** The threads of optimized_processor as imperative code over the shared arrays and pipes. Each method is
    one step of its thread, and is the step of the state machine. */
module PipelinedCpu {
  import opened Isa
  import opened Pipeline
  import opened PipelineTheorems

  class Processor {
    const depth: PipeName -> nat
    const mem: array<Word>
    const reg: array<Word>
    var startPc: seq<Word>
    var nextPc: seq<Word>
    var irPipe: seq<Word>
    var pcToDecode: seq<Word>
    var operands: seq<seq<Word>>
    var outPort: seq<Word>
    var haltPort: seq<Word>
    var run: Run
    var fetch: Fetch
    var decode: Decode
    var exec: Exec
    var received: seq<Word>
    var haltsRead: seq<Word>

    ghost predicate Valid()
      reads this
    {
      mem.Length == 0x1_0000 && reg.Length == 16 && mem != reg && |operands| == OPERANDS
    }

    ghost function View(): (s: State)
      reads this, mem, reg
      requires Valid()
      ensures |s.operands| == OPERANDS
    {
      State(reg[..], mem[..], startPc, nextPc, irPipe, pcToDecode, operands, outPort, haltPort,
            run, fetch, decode, exec, received, haltsRead)
    }

    /** The step of agent a took place, or a was blocked and nothing changed. */
    twostate predicate Stepped(a: Agent, moved: bool)
      reads this, mem, reg
      requires old(Valid()) && Valid()
    {
      match AgentStep(old(View()), a, depth)
      case Some(t) => moved && View() == t
      case None => !moved && View() == old(View())
    }

    constructor (program: Memory, start: Word, depth: PipeName -> nat)
      ensures Valid() && this.depth == depth && fresh(mem) && fresh(reg)
      ensures View() == InitialState(ZeroRegisters(), program, start)
    {
      this.depth := depth;
      mem := new Word[0x1_0000](i requires 0 <= i < 0x1_0000 => program[i]);
      reg := new Word[16](_ => 0);
      startPc, nextPc, irPipe, pcToDecode, outPort, haltPort, received, haltsRead := [start], [], [], [], [], [], [], [];
      operands := seq(OPERANDS, _ => []);
      run, fetch, decode, exec := Starting, FetchIdle, DecodeIdle, Reading([]);
      new;
      assert mem[..] == program;
      assert reg[..] == ZeroRegisters();
    }

    method RunStep() returns (moved: bool)
      requires Valid()
      modifies this`startPc, this`nextPc, this`run, reg
      ensures Valid() && Stepped(RunThread, moved)
    {
      moved := true;
      match run {
        case Starting =>
          reg[PC] := 0;
          run := AwaitingStart;
        case AwaitingStart =>
          if startPc == [] { return false; }
          run, startPc := HoldingStart(startPc[0]), startPc[1..];
        case HoldingStart(pc) =>
          if |nextPc| >= depth(NextPc) { return false; }
          nextPc, run := nextPc + [pc], AwaitingStart;
      }
    }

    method FetchStep() returns (moved: bool)
      requires Valid()
      modifies this`nextPc, this`irPipe, this`pcToDecode, this`fetch
      ensures Valid() && Stepped(FetchThread, moved)
    {
      moved := true;
      match fetch {
        case FetchIdle =>
          if nextPc == [] { return false; }
          fetch, nextPc := GotPc(nextPc[0]), nextPc[1..];
        case GotPc(pc) =>
          fetch := Loaded(pc, mem[pc]);
        case Loaded(pc, ir) =>
          if |irPipe| >= depth(IrPipe) { return false; }
          irPipe, fetch := irPipe + [ir], SentIr(pc);
        case SentIr(pc) =>
          if |pcToDecode| >= depth(PcToDecode) { return false; }
          pcToDecode, fetch := pcToDecode + [pc], FetchIdle;
      }
    }

    method DecodeStep() returns (moved: bool)
      requires Valid()
      modifies this`nextPc, this`irPipe, this`pcToDecode, this`operands, this`decode
      ensures Valid() && Stepped(DecodeThread, moved)
    {
      moved := true;
      match decode {
        case DecodeIdle =>
          if irPipe == [] { return false; }
          decode, irPipe := GotIr(irPipe[0]), irPipe[1..];
        case GotIr(ir) =>
          if pcToDecode == [] { return false; }
          decode, pcToDecode := Deciding(ir, pcToDecode[0]), pcToDecode[1..];
        case Deciding(ir, pc) =>
          var op := ir / 0x1000;
          if op != 0 && (op < 8 || op > 10) {
            if |nextPc| >= depth(NextPc) { return false; }
            nextPc := nextPc + [Plus(pc, 1)];
          }
          decode := Sending(0, ir, pc);
        case Sending(n, ir, pc) =>
          if n >= OPERANDS || |operands[n]| >= depth(Operand(n)) { return false; }
          operands := operands[n := operands[n] + [OperandValue(n, ir, pc)]];
          decode := if n + 1 == OPERANDS then DecodeIdle else Sending(n + 1, ir, pc);
      }
    }

    /** reg[r]; register numbers are always below 16. */
    function RegValue(r: Word): (w: Word)
      reads this, mem, reg
      requires Valid()
      ensures w == Reg(View(), r)
    {
      if r < 16 then reg[r] else 0
    }

    method SetRegister(r: Word, w: Word)
      requires Valid()
      modifies reg
      ensures Valid() && View() == SetReg(old(View()), r, w)
    {
      if 0 < r < 16 {
        reg[r] := w;
      }
    }

    method SendPc(pc: Word) returns (moved: bool)
      requires Valid()
      modifies this`nextPc, this`exec
      ensures Valid()
      ensures match SendNextPc(old(View()), pc, depth)
              case Some(t) => moved && View() == t
              case None => !moved && View() == old(View())
    {
      moved := |nextPc| < depth(NextPc);
      if moved {
        nextPc, exec := nextPc + [pc], Reading([]);
      }
    }

    method Perform(vals: seq<Word>) returns (moved: bool)
      requires Valid() && |vals| == OPERANDS
      modifies this`nextPc, this`outPort, this`haltPort, this`exec, mem, reg
      ensures Valid()
      ensures match Dispatch(old(View()), vals, depth)
              case Some(t) => moved && View() == t
              case None => !moved && View() == old(View())
    {
      var op, r1, r2, r3, imm, offs, pc := vals[0], vals[1], vals[2], vals[3], vals[4], vals[5], vals[6];
      var addr := Plus(RegValue(r2), RegValue(r3));
      moved := true;
      if op == 0 {
        if |haltPort| >= depth(HaltPort) { return false; }
        haltPort, exec := haltPort + [1], Halting(vals);
        return;
      } else if op == 8 {
        moved := SendPc(mem[Plus(pc, 1)]);
        return;
      } else if op == 9 {
        moved := SendPc(Plus(RegValue(r1), Plus(pc, offs)));
        return;
      } else if op == 10 {
        moved := SendPc(if RegValue(r1) != 0 then Plus(pc, 1) else Plus(pc, offs));
        return;
      } else if op == 14 {
        if |outPort| >= depth(OutPort) { return false; }
        outPort := outPort + [RegValue(r1)];
      } else if op == 4 {
        mem[addr] := RegValue(r1);
      } else if op < 8 {
        SetRegister(r1, if op == 1 then addr else if op == 2 then Minus(RegValue(r2), RegValue(r3))
                        else if op == 3 then mem[addr] else if op == 5 then LoadLow(RegValue(r1), imm)
                        else if op == 6 then LoadHigh(RegValue(r1), imm) else RegValue(r2));
      }
      exec := Reading([]);
    }

    method ExecStep() returns (moved: bool)
      requires Valid()
      modifies this`nextPc, this`operands, this`outPort, this`haltPort, this`exec, mem, reg
      ensures Valid() && Stepped(ExecThread, moved)
    {
      moved := true;
      match exec {
        case Reading(vals) =>
          var n := |vals|;
          if n == OPERANDS {
            moved := Perform(vals);
          } else {
            if n > OPERANDS || operands[n] == [] { return false; }
            reg[0] := 0;
            exec, operands := Reading(vals + [operands[n][0]]), operands[n := operands[n][1..]];
          }
        case Halting(vals) =>
          if |vals| != OPERANDS { return false; }
          SetRegister(vals[1], Plus(RegValue(vals[2]), RegValue(vals[3])));
          exec := Reading([]);
      }
    }

    method ReadOut() returns (moved: bool)
      requires Valid()
      modifies this`outPort, this`received
      ensures Valid() && Stepped(OutReader, moved)
    {
      moved := outPort != [];
      if moved {
        received, outPort := received + [outPort[0]], outPort[1..];
      }
    }

    method ReadHalt() returns (moved: bool)
      requires Valid()
      modifies this`haltPort, this`haltsRead
      ensures Valid() && Stepped(HaltReader, moved)
    {
      moved := haltPort != [];
      if moved {
        haltsRead, haltPort := haltsRead + [haltPort[0]], haltPort[1..];
      }
    }

    /** The threads run in any order. */
    method Simulate(schedule: seq<Agent>)
      requires Valid()
      modifies this, mem, reg
      ensures Valid() && View() == Reached(old(View()), schedule, depth)
    {
      var i := 0;
      while i < |schedule|
        invariant 0 <= i <= |schedule| && Valid()
        invariant View() == Reached(old(View()), schedule[..i], depth)
      {
        var moved;
        match schedule[i] {
          case RunThread => moved := RunStep();
          case FetchThread => moved := FetchStep();
          case DecodeThread => moved := DecodeStep();
          case ExecThread => moved := ExecStep();
          case OutReader => moved := ReadOut();
          case HaltReader => moved := ReadHalt();
        }
        assert schedule[..i + 1][..i] == schedule[..i];
        i := i + 1;
      }
      assert schedule[..i] == schedule;
    }
  }

  /** Every program without stores into its own straight-line code, run under any schedule, has written what
      the sequential processor writes in some number of instructions; and once it has announced its halt, with a 1, it
      has written all that the sequential processor writes before it halts. */
  method RunProgram(program: Memory, start: Word, depth: PipeName -> nat, schedule: seq<Agent>)
    returns (out: seq<Word>, announced: seq<Word>)
    requires TameWithin(Reference(ZeroRegisters(), program, start), Window(depth))
    ensures exists k: nat :: out == After(Reference(ZeroRegisters(), program, start), k).out
    ensures announced == [] || announced == [1]
    ensures announced == [1] ==> exists k: nat ::
              var c := After(Reference(ZeroRegisters(), program, start), k); c.halt && out == c.out
  {
    var cpu := new Processor(program, start, depth);
    cpu.Simulate(schedule);
    OutputIsSequential(ZeroRegisters(), program, start, schedule, depth);
    HaltIsAnnounced(ZeroRegisters(), program, start, schedule, depth);
    out := cpu.received + cpu.outPort;
    announced := cpu.haltsRead + cpu.haltPort;
  }
}
