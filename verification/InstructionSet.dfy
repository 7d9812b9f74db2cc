/** What each instruction does, in numbers: for every word of the instruction, and any registers and memory. */
module InstructionSet {
  import opened Isa

  /** The machine is about to execute w, from address pc. */
  predicate About(s: Cpu, pc: Word, w: int) {
    !s.halt && s.reg[15] == pc && s.mem[pc] as int == w
  }

  /** An instruction word with a register and a byte. */
  lemma ByteFields(w: Word, op: int, a: int, imm: int)
    requires 0 <= op < 16 && 0 <= a < 16 && 0 <= imm < 256 && w == 4096 * op + 256 * a + imm
    ensures Op(w) == op && R1(w) == a && Imm(w) == imm
  {
  }

  lemma LowFields(w: Word, high: int, b: int, c: int)
    requires 0 <= b < 16 && 0 <= c < 16 && w == 256 * high + 16 * b + c
    ensures R2(w) == b && R3(w) == c
  {
    assert w / 16 == 16 * high + b;
  }

  /** An instruction word with three registers. */
  lemma RegisterFields(w: Word, op: int, a: int, b: int, c: int)
    requires 0 <= op < 16 && 0 <= a < 16 && 0 <= b < 16 && 0 <= c < 16 && w == 4096 * op + 256 * a + 16 * b + c
    ensures Op(w) == op && R1(w) == a && R2(w) == b && R3(w) == c
  {
    hide *;
    ByteFields(w, op, a, 16 * b + c);
    LowFields(w, 16 * op + a, b, c);
  }

  lemma HaltStops(s: Cpu, pc: Word, low: int)
    requires 0 <= low < 4096 && About(s, pc, low)
    ensures Step(s) == s.(halt := true, reg := s.reg[15 := (pc as int + 1) % 65536])
  {
    ByteFields(s.mem[pc], 0, low / 256, low % 256);
    hide Op, R1, R2, R3, Imm, SignMagnitude, LoadLow, LoadHigh;
  }

  lemma AddAdds(s: Cpu, pc: Word, a: nat, b: nat, c: nat)
    requires a < 15 && b < 15 && c < 15 && About(s, pc, 0x1000 + 256 * a + 16 * b + c)
    ensures Step(s) == s.(reg := s.reg[15 := (pc as int + 1) % 65536][a := (s.reg[b] as int + s.reg[c] as int) % 65536])
  {
    RegisterFields(s.mem[pc], 1, a, b, c);
    hide Op, R1, R2, R3, Imm, SignMagnitude, LoadLow, LoadHigh;
  }

  lemma SubSubtracts(s: Cpu, pc: Word, a: nat, b: nat, c: nat)
    requires a < 15 && b < 15 && c < 15 && About(s, pc, 0x2000 + 256 * a + 16 * b + c)
    ensures Step(s) == s.(reg := s.reg[15 := (pc as int + 1) % 65536][a := (s.reg[b] as int - s.reg[c] as int + 65536) % 65536])
  {
    RegisterFields(s.mem[pc], 2, a, b, c);
    Around(s.reg[b] as int - s.reg[c] as int);
    hide Op, R1, R2, R3, Imm, SignMagnitude, LoadLow, LoadHigh;
  }

  lemma Around(x: int)
    ensures (x + 65536) % 65536 == x % 65536
  {
  }

  lemma LwLoads(s: Cpu, pc: Word, a: nat, b: nat, c: nat)
    requires a < 15 && b < 15 && c < 15 && About(s, pc, 0x3000 + 256 * a + 16 * b + c)
    ensures Step(s) == s.(reg := s.reg[15 := (pc as int + 1) % 65536][a := s.mem[(s.reg[b] as int + s.reg[c] as int) % 65536]])
  {
    RegisterFields(s.mem[pc], 3, a, b, c);
    hide Op, R1, R2, R3, Imm, SignMagnitude, LoadLow, LoadHigh;
  }

  lemma SwStores(s: Cpu, pc: Word, a: nat, b: nat, c: nat)
    requires a < 15 && b < 15 && c < 15 && About(s, pc, 0x4000 + 256 * a + 16 * b + c)
    ensures Step(s) == s.(reg := s.reg[15 := (pc as int + 1) % 65536], mem := s.mem[(s.reg[b] as int + s.reg[c] as int) % 65536 := s.reg[a]])
  {
    RegisterFields(s.mem[pc], 4, a, b, c);
    hide Op, R1, R2, R3, Imm, SignMagnitude, LoadLow, LoadHigh;
  }

  // ----- The loads of a half -----

  lemma LowLoaded(w: Word, imm: Word)
    requires imm < 256
    ensures LoadLow(w, imm) / 256 == w / 256 && LoadLow(w, imm) % 256 == imm
  {
  }

  lemma HighLoaded(w: Word, imm: Word)
    requires imm < 256
    ensures LoadHigh(w, imm) / 256 == imm && LoadHigh(w, imm) % 256 == w % 256
  {
  }

  /** lli sets the low half and keeps the high one. */
  lemma LliSetsLow(s: Cpu, pc: Word, a: nat, imm: nat)
    requires a < 15 && imm < 256 && About(s, pc, 0x5000 + 256 * a + imm)
    ensures var r := Step(s).reg[a]; r / 256 == s.reg[a] / 256 && r % 256 == imm
    ensures Step(s) == s.(reg := s.reg[15 := (pc as int + 1) % 65536][a := Step(s).reg[a]])
  {
    ByteFields(s.mem[pc], 5, a, imm);
    LowLoaded(s.reg[a], imm);
    hide Op, R1, R2, R3, Imm, SignMagnitude, LoadLow, LoadHigh;
  }

  /** lhi sets the high half and keeps the low one. */
  lemma LhiSetsHigh(s: Cpu, pc: Word, a: nat, imm: nat)
    requires a < 15 && imm < 256 && About(s, pc, 0x6000 + 256 * a + imm)
    ensures var r := Step(s).reg[a]; r / 256 == imm && r % 256 == s.reg[a] % 256
    ensures Step(s) == s.(reg := s.reg[15 := (pc as int + 1) % 65536][a := Step(s).reg[a]])
  {
    ByteFields(s.mem[pc], 6, a, imm);
    HighLoaded(s.reg[a], imm);
    hide Op, R1, R2, R3, Imm, SignMagnitude, LoadLow, LoadHigh;
  }

  lemma FromHalves(r: int, hi: int, lo: int)
    requires r / 256 == hi && r % 256 == lo
    ensures r == 256 * hi + lo
  {
  }

  /** The two together load any word, whatever the register held. */
  lemma LoadsWord(s: Cpu, pc: Word, a: nat, lo: nat, hi: nat)
    requires a < 15 && lo < 256 && hi < 256 && About(s, pc, 0x5000 + 256 * a + lo)
    requires s.mem[(pc as int + 1) % 65536] as int == 0x6000 + 256 * a + hi
    ensures Step(Step(s)).reg[a] == 256 * hi + lo
  {
    hide Step;
    LliSetsLow(s, pc, a, lo);
    var t := Step(s);
    LhiSetsHigh(t, (pc as int + 1) % 65536, a, hi);
    FromHalves(Step(t).reg[a], hi, lo);
  }

  // ----- Moves, jumps, branches, output -----

  lemma MvCopies(s: Cpu, pc: Word, a: nat, b: nat, c: nat)
    requires a < 15 && b < 15 && c < 16 && About(s, pc, 0x7000 + 256 * a + 16 * b + c)
    ensures Step(s) == s.(reg := s.reg[15 := (pc as int + 1) % 65536][a := s.reg[b]])
  {
    RegisterFields(s.mem[pc], 7, a, b, c);
    hide Op, R1, R2, R3, Imm, SignMagnitude, LoadLow, LoadHigh;
  }

  /** jmp goes to the address in the next word. */
  lemma JmpJumps(s: Cpu, pc: Word, low: int)
    requires 0 <= low < 4096 && About(s, pc, 0x8000 + low)
    ensures Step(s) == s.(reg := s.reg[15 := s.mem[(pc as int + 1) % 65536]])
  {
    ByteFields(s.mem[pc], 8, low / 256, low % 256);
    hide Op, R1, R2, R3, Imm, SignMagnitude, LoadLow, LoadHigh;
  }

  /** br goes forward by 0 to 127, or back by 0 to 127, from its own address and the register. */
  lemma BrBranches(s: Cpu, pc: Word, a: nat, imm: nat)
    requires a < 15 && imm < 256 && About(s, pc, 0x9000 + 256 * a + imm)
    ensures Step(s) == s.(reg := s.reg[15 := (pc as int + s.reg[a] as int + (if imm < 128 then imm else 128 - imm)) % 65536])
  {
    ByteFields(s.mem[pc], 9, a, imm);
    var offset := if imm < 128 then imm else 128 - imm;
    assert SignMagnitude(imm) == offset;
    Target(pc, s.reg[a] as int + (offset - 1), pc as int + s.reg[a] as int + offset);
    hide Op, R1, R2, R3, Imm, SignMagnitude, LoadLow, LoadHigh, Plus;
    assert s.reg[15 := Plus(pc, 1)][15 := Plus(Plus(pc, 1), s.reg[a] as int + (offset - 1))]
        == s.reg[15 := Plus(Plus(pc, 1), s.reg[a] as int + (offset - 1))];
  }

  lemma Target(pc: Word, x: int, y: int)
    requires pc as int + 1 + x == y
    ensures Plus(Plus(pc, 1), x) == y % 65536
  {
  }

  /** brz does so for a register that is 0. */
  lemma BrzBranches(s: Cpu, pc: Word, a: nat, imm: nat)
    requires a < 15 && imm < 256 && About(s, pc, 0xA000 + 256 * a + imm)
    ensures Step(s) == s.(reg := s.reg[15 := if s.reg[a] == 0 then (pc as int + (if imm < 128 then imm else 128 - imm)) % 65536
                                             else (pc as int + 1) % 65536])
  {
    ByteFields(s.mem[pc], 10, a, imm);
    var offset := if imm < 128 then imm else 128 - imm;
    assert SignMagnitude(imm) == offset && Plus(pc, 1) == (pc as int + 1) % 65536;
    Target(pc, offset - 1, pc as int + offset);
    hide Op, R1, R2, R3, Imm, SignMagnitude, LoadLow, LoadHigh, Plus;
    assert s.reg[15 := Plus(pc, 1)][15 := Plus(Plus(pc, 1), offset - 1)] == s.reg[15 := Plus(Plus(pc, 1), offset - 1)];
  }

  lemma OutWrites(s: Cpu, pc: Word, a: nat, low: nat)
    requires a < 15 && low < 256 && About(s, pc, 0xE000 + 256 * a + low)
    ensures Step(s) == s.(reg := s.reg[15 := (pc as int + 1) % 65536], out := s.out + [s.reg[a]])
  {
    ByteFields(s.mem[pc], 14, a, low);
    hide Op, R1, R2, R3, Imm, SignMagnitude, LoadLow, LoadHigh;
  }

  /** The unused codes do nothing. */
  lemma OthersDoNothing(s: Cpu, pc: Word, op: nat, low: nat)
    requires op in {11, 12, 13, 15} && low < 4096 && About(s, pc, 4096 * op + low)
    ensures Step(s) == s.(reg := s.reg[15 := (pc as int + 1) % 65536])
  {
    ByteFields(s.mem[pc], op, low / 256, low % 256);
    hide Op, R1, R2, R3, Imm, SignMagnitude, LoadLow, LoadHigh;
  }
}
