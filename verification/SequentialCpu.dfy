/** The program of simple_processor: global arrays, a fetch, a decode and an execute, and the loop of run(). */
module SequentialCpu {
  import opened Isa

  class Processor {
    const mem: array<Word>
    const reg: array<Word>
    // Set by decode.
    var ir: Word
    var op: Word
    var r1: Word
    var r2: Word
    var r3: Word
    var imm: Word
    var offs: int
    var halt: bool
    // What has been written to out_port.
    var outPort: seq<Word>

    ghost predicate Valid()
      reads this
    {
      mem.Length == 0x1_0000 && reg.Length == 16 && mem != reg
    }

    ghost function View(): Cpu
      reads this, mem, reg
      requires Valid()
    {
      Cpu(reg[..], mem[..], halt, outPort)
    }

    constructor (program: Memory)
      ensures Valid() && fresh(mem) && fresh(reg)
      ensures View() == Cpu(ZeroRegisters(), program, false, [])
    {
      mem := new Word[0x1_0000](i requires 0 <= i < 0x1_0000 => program[i]);
      reg := new Word[16](_ => 0);
      ir, op, r1, r2, r3, imm, offs := 0, 0, 0, 0, 0, 0, 0;
      halt, outPort := false, [];
      new;
      assert mem[..] == program;
      assert reg[..] == ZeroRegisters();
    }

    method FetchInstruction()
      requires Valid()
      modifies this`ir, reg
      ensures Valid()
      ensures ir == Fetched(old(View()))
      ensures View() == old(View()).(reg := old(reg[..])[PC := Plus(old(reg[PC]), 1)])
    {
      ir := mem[reg[PC]];
      reg[PC] := Plus(reg[PC], 1);
    }

    method DecodeInstruction()
      requires Valid()
      modifies this`op, this`r1, this`r2, this`r3, this`imm, this`offs
      ensures op == Op(ir) && r1 == R1(ir) && r2 == R2(ir) && r3 == R3(ir) && imm == Imm(ir)
      ensures offs == SignMagnitude(imm) - 1 && -128 <= offs <= 126
      ensures View() == old(View())
    {
      op := ir / 0x1000;
      r1 := ir / 0x100 % 16;
      r2 := ir / 0x10 % 16;
      r3 := ir % 16;
      imm := ir % 0x100;
      offs := (if imm > 127 then 128 - imm else imm) - 1;
    }

    method ExecuteInstruction()
      requires Valid()
      requires op == Op(ir) && r1 == R1(ir) && r2 == R2(ir) && r3 == R3(ir) && imm == Imm(ir)
      requires offs == SignMagnitude(imm) - 1
      modifies this`halt, this`outPort, mem, reg
      ensures Valid() && View() == Execute(ir, old(View()))
    {
      match op {
        case 0 => halt := true;
        case 1 => reg[r1] := Plus(reg[r2], reg[r3]);
        case 2 => reg[r1] := Minus(reg[r2], reg[r3]);
        case 3 => reg[r1] := mem[Plus(reg[r2], reg[r3])];
        case 4 => mem[Plus(reg[r2], reg[r3])] := reg[r1];
        case 5 => reg[r1] := LoadLow(reg[r1], imm);
        case 6 => reg[r1] := LoadHigh(reg[r1], imm);
        case 7 => reg[r1] := reg[r2];
        case 8 => reg[PC] := mem[reg[PC]];
        case 9 => reg[PC] := Plus(reg[PC], reg[r1] + offs);
        case 10 => if reg[r1] == 0 { reg[PC] := Plus(reg[PC], offs); }
        case 14 => outPort := outPort + [reg[r1]];
        case _ =>
      }
    }

    /** The first bound passes of the loop of run(), or fewer if the machine halts. */
    method Run(bound: nat) returns (passes: nat)
      requires Valid()
      modifies this, mem, reg
      ensures Valid() && passes <= bound
      ensures View() == After(old(View()).(reg := old(reg[..])[PC := 0], halt := false), passes)
      ensures passes < bound ==> halt
    {
      halt := false;
      reg[PC] := 0;
      ghost var start := View();
      assert start == old(View()).(reg := old(reg[..])[PC := 0], halt := false);
      passes := 0;
      while !halt && passes < bound
        invariant Valid() && 0 <= passes <= bound
        invariant View() == After(start, passes)
      {
        FetchInstruction();
        DecodeInstruction();
        ExecuteInstruction();
        passes := passes + 1;
      }
    }
  }
}
