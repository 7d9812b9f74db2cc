/** The condition on stores is exact: among programs that keep the register conventions, fetch reads the words
    of the sequential run in every interleaving if and only if no store changes a word executed later in the
    same straight-line stretch, and no further ahead than the depths of the operand pipes allow. */
module PrefetchTheorems {
  import opened Isa
  import opened Pipeline
  import opened PipelineProof
  import opened PipelineTheorems

  /** The instruction words fetch has read from memory, in order. */
  function FetchedWords(s: State, schedule: seq<Agent>, depth: PipeName -> nat): seq<Word>
    requires |s.operands| == OPERANDS
  {
    if schedule == [] then []
    else
      var before := schedule[..|schedule| - 1];
      var t := Reached(s, before, depth);
      FetchedWords(s, before, depth)
      + if schedule[|schedule| - 1] == FetchThread && t.fetch.GotPc? then [t.mem[t.fetch.pc]] else []
  }

  ghost predicate WordsAgree(c: Cpu, words: seq<Word>) {
    forall i :: 0 <= i < |words| ==> words[i] == IrAt(c, i)
  }

  ghost function Words(reg: RegFile, mem: Memory, start: Word, schedule: seq<Agent>, depth: PipeName -> nat): seq<Word> {
    FetchedWords(InitialState(reg, mem, start), schedule, depth)
  }

  /** In every interleaving fetch reads the words of the sequential run, in order. */
  ghost predicate FetchesSequentially(reg: RegFile, mem: Memory, start: Word, depth: PipeName -> nat) {
    forall schedule: seq<Agent> ::
      WordsAgree(Reference(reg, mem, start), Words(reg, mem, start, schedule, depth))
  }

  function Loads(s: State, n: Progress): int {
    n.taken - if s.fetch.GotPc? then 1 else 0
  }

  /** The invariant, and as many words read as program counters taken and looked up. */
  ghost predicate InvAndLoads(reg: RegFile, mem: Memory, start: Word, schedule: seq<Agent>, depth: PipeName -> nat, n: Progress) {
    && Inv(Reference(reg, mem, start), StateAfter(reg, mem, start, schedule, depth), n)
    && |Words(reg, mem, start, schedule, depth)| == Loads(StateAfter(reg, mem, start, schedule, depth), n)
  }

  lemma OneMore(schedule: seq<Agent>, a: Agent)
    ensures var longer := schedule + [a]; longer[..|longer| - 1] == schedule && longer[|longer| - 1] == a
  {
  }

  lemma OneMoreWord(reg: RegFile, mem: Memory, start: Word, schedule: seq<Agent>, a: Agent, depth: PipeName -> nat)
    ensures var s := StateAfter(reg, mem, start, schedule, depth);
            && Words(reg, mem, start, schedule + [a], depth)
               == Words(reg, mem, start, schedule, depth) + (if a == FetchThread && s.fetch.GotPc? then [s.mem[s.fetch.pc]] else [])
            && StateAfter(reg, mem, start, schedule + [a], depth)
               == match AgentStep(s, a, depth) case Some(t) => t case None => s
  {
    OneMore(schedule, a);
    hide AgentStep, InitialState;
  }

  lemma LoadsAdvance(s: State, a: Agent, depth: PipeName -> nat, n: Progress)
    requires |s.operands| == OPERANDS && AgentStep(s, a, depth).Some?
    requires a == ExecThread ==> AgentStep(s, a, depth).value.fetch == s.fetch
    ensures Loads(AgentStep(s, a, depth).value, Advance(s, a, n))
            == Loads(s, n) + if a == FetchThread && s.fetch.GotPc? then 1 else 0
  {
    hide ExecStep, OperandValue;
  }

  /** One step, as long as the word fetch is about to read is right. */
  lemma StepKeepsLoads(reg: RegFile, mem: Memory, start: Word, schedule: seq<Agent>, a: Agent, depth: PipeName -> nat, n: Progress)
    requires Conforming(Reference(reg, mem, start)) && InvAndLoads(reg, mem, start, schedule, depth, n)
    requires a == FetchThread ==> FetchOk(Reference(reg, mem, start), StateAfter(reg, mem, start, schedule, depth), n)
    requires AgentStep(StateAfter(reg, mem, start, schedule, depth), a, depth).Some?
    ensures InvAndLoads(reg, mem, start, schedule + [a], depth,
                        Advance(StateAfter(reg, mem, start, schedule, depth), a, n))
  {
    var c, s := Reference(reg, mem, start), StateAfter(reg, mem, start, schedule, depth);
    OneMoreWord(reg, mem, start, schedule, a, depth);
    AgentKeepsInv(c, s, a, depth, n);
    if a == ExecThread {
      ExecEffortGrows(c, s, depth, n);
    }
    hide Inv, Conforming, FetchOk, InitialState, Reference, ExecStep, OperandValue, Loads, Words, StateAfter, ExecEffort;
    LoadsAdvance(s, a, depth, n);
  }

  // ----- Safe stores suffice -----

  lemma {:induction false} SafeStoresAgree(reg: RegFile, mem: Memory, start: Word, schedule: seq<Agent>, depth: PipeName -> nat)
    returns (n: Progress)
    requires TameWithin(Reference(reg, mem, start), Window(depth))
    ensures InvAndLoads(reg, mem, start, schedule, depth, n)
    ensures WordsAgree(Reference(reg, mem, start), Words(reg, mem, start, schedule, depth))
  {
    var c := Reference(reg, mem, start);
    if schedule == [] {
      InitialInv(reg, mem, start);
      n := Progress(0, 0, 0, 0);
    } else {
      var before, a := schedule[..|schedule| - 1], schedule[|schedule| - 1];
      n := SafeStoresAgree(reg, mem, start, before, depth);
      var s := StateAfter(reg, mem, start, before, depth);
      assert schedule == before + [a];
      OneMoreWord(reg, mem, start, before, a, depth);
      RunFits(reg, mem, start, before, depth);
      FetchReadsItsWord(c, s, depth, n);
      AgreeingWord(c, s, a, n, Words(reg, mem, start, before, depth));
      hide Inv, StoresSafeWithin, OperandsOk, FetchOk, Fits, Window, InitialState, Reference, AgentStep, IrAt, Words, StateAfter, Step, After;
      if AgentStep(s, a, depth).Some? {
        StepKeepsLoads(reg, mem, start, before, a, depth, n);
        n := Advance(s, a, n);
      }
    }
  }

  lemma AgreeingWord(c: Cpu, s: State, a: Agent, n: Progress, words: seq<Word>)
    requires WordsAgree(c, words) && Inv(c, s, n) && FetchOk(c, s, n) && |words| == Loads(s, n)
    ensures WordsAgree(c, words + (if a == FetchThread && s.fetch.GotPc? then [s.mem[s.fetch.pc]] else []))
  {
    hide PipesOk, MachineOk, StartOk, TokenOk, HaltOk, IrAt, PcAt;
  }

  // ----- Safe stores are necessary -----

  /** The other direction of the last lemma: the word about to be read will be one of those that agree. */
  lemma NextWordAgrees(reg: RegFile, mem: Memory, start: Word, schedule: seq<Agent>, depth: PipeName -> nat, n: Progress)
    requires FetchesSequentially(reg, mem, start, depth) && InvAndLoads(reg, mem, start, schedule, depth, n)
    ensures FetchOk(Reference(reg, mem, start), StateAfter(reg, mem, start, schedule, depth), n)
  {
    OneMoreWord(reg, mem, start, schedule, FetchThread, depth);
    hide Inv, InitialState, Reference, AgentStep, IrAt, Words, StateAfter;
    var words := Words(reg, mem, start, schedule + [FetchThread], depth);
    assert WordsAgree(Reference(reg, mem, start), words);
    if StateAfter(reg, mem, start, schedule, depth).fetch.GotPc? && n.taken > 0 {
      assert words[n.taken - 1] == IrAt(Reference(reg, mem, start), n.taken - 1);
    }
  }

  /** Fetch holds the pc of instruction j while execute has completed k instructions. */
  ghost predicate LooksAhead(s: State, n: Progress, k: nat, j: nat) {
    s.fetch.GotPc? && n.taken == j + 1 && n.executed == k
  }

  /** Neither thread has gone further than that. */
  ghost predicate Within(s: State, n: Progress, k: nat, j: nat) {
    n.executed <= k && (n.taken <= j || (s.fetch.GotPc? && n.taken == j + 1))
  }

  /** Decode is blocked neither by an empty pipe before it, as fetch is further on or has nothing to do, nor by a full
      one behind it, as execute has taken its operands. */
  lemma DecodeGoesOn(c: Cpu, s: State, depth: PipeName -> nat, n: Progress, k: nat, j: nat)
    requires Inv(c, s, n) && DepthsPositive(depth) && k < j <= k + Window(depth) && StraightLine(c, k, j)
    requires !After(c, k).halt && n.executed == k && n.issued > 0 && n.taken <= j && Ready(s) && FetchStep(s, depth).None?
    ensures DecodeStep(s, depth).Some?
  {
    hide Step, Execute, After, IrAt, PcAt, OperandValue, MachineOk, StartOk, HaltOk;
    assert Stretch(c, PcStream, s.nextPc, n.taken, n.issued);
    assert Stretch(c, IrStream, s.irPipe, IrRead(s, n), IrWritten(s, n));
    assert Stretch(c, PcStream, s.pcToDecode, PcRead(s, n), PcWritten(s, n));
    assert depth(NextPc) >= 1 && depth(IrPipe) >= 1 && depth(PcToDecode) >= 1;
    assert Straight(IrAt(c, n.issued - 1)) || n.issued - 1 >= j;
    if s.decode.Sending? {
      var i := s.decode.n;
      assert Stretch(c, OperandStream(i), s.operands[i], OperandRead(s, n, i), OperandWritten(s, n, i));
      assert Shallowest(depth, OPERANDS - 1) <= depth(Operand(i));
    }
  }

  /** Execute has completed its k instructions: it can still take the operands of the next, and fetch and decode can go
      on to instruction j, as all instructions in between are straight. */
  lemma FrontMoves(c: Cpu, s: State, depth: PipeName -> nat, n: Progress, k: nat, j: nat) returns (a: Agent)
    requires Inv(c, s, n) && DepthsPositive(depth) && k < j <= k + Window(depth) && StraightLine(c, k, j)
    requires Conforming(c) && !After(c, k).halt && n.executed == k && n.issued > 0 && n.taken <= j
    ensures a in {FetchThread, DecodeThread, ExecThread} && AgentStep(s, a, depth).Some?
    ensures a == ExecThread ==> !Ready(s)
  {
    hide Step, Execute, After, StraightLine, IrAt, PcAt, Window, StartOk, MachineOk, TokenOk;
    if !Ready(s) {
      if s.operands[|s.exec.vals|] != [] {
        a := ExecThread;
      } else {
        a := WaitingMoves(c, s, depth, n);
      }
    } else if FetchStep(s, depth).Some? {
      a := FetchThread;
    } else {
      DecodeGoesOn(c, s, depth, n, k, j);
      a := DecodeThread;
    }
  }

  /** Until fetch looks ahead to instruction j from instruction k, some thread can move without overshooting. */
  lemma NearerMoves(c: Cpu, s: State, depth: PipeName -> nat, n: Progress, k: nat, j: nat) returns (a: Agent)
    requires Conforming(c) && Inv(c, s, n) && DepthsPositive(depth) && k < j <= k + Window(depth) && StraightLine(c, k, j)
    requires !After(c, n.executed).halt && !After(c, k).halt && Within(s, n, k, j) && !LooksAhead(s, n, k, j)
    ensures a != HaltReader && AgentStep(s, a, depth).Some?
    ensures a == ExecThread ==> n.executed < k || !Ready(s)
    ensures a == FetchThread ==> n.taken <= j
  {
    hide Step, Execute, After, StraightLine, IrAt, PcAt, Window, MachineOk, HaltOk;
    if n.issued == 0 {
      assert Stretch(c, PcStream, s.nextPc, n.taken, n.issued);
      assert depth(NextPc) >= 1;
      a := RunThread;
    } else if n.executed == k {
      a := FrontMoves(c, s, depth, n, k, j);
    } else if Ready(s) {
      ReadyMoves(c, s, depth, n);
      a := if ExecStep(s, depth).Some? then ExecThread else OutReader;
    } else if s.operands[|s.exec.vals|] != [] {
      a := ExecThread;
    } else {
      a := WaitingMoves(c, s, depth, n);
      if n.taken == j + 1 {
        DecodeCatchesUp(c, s, depth, n, j);
        a := DecodeThread;
      }
    }
  }

  /** When fetch is at instruction j and execute waits for an operand of an earlier one, decode is not blocked. */
  lemma DecodeCatchesUp(c: Cpu, s: State, depth: PipeName -> nat, n: Progress, j: nat)
    requires Inv(c, s, n) && DepthsPositive(depth) && s.fetch.GotPc? && n.taken == j + 1 && n.executed < j
    requires |s.exec.vals| < OPERANDS && s.operands[|s.exec.vals|] == []
    ensures DecodeStep(s, depth).Some?
  {
    hide Step, Execute, After, IrAt, PcAt, OperandValue, MachineOk, StartOk, HaltOk;
    var k := |s.exec.vals|;
    assert Stretch(c, PcStream, s.nextPc, n.taken, n.issued);
    assert Stretch(c, IrStream, s.irPipe, IrRead(s, n), IrWritten(s, n));
    assert Stretch(c, PcStream, s.pcToDecode, PcRead(s, n), PcWritten(s, n));
    assert Stretch(c, OperandStream(k), s.operands[k], OperandRead(s, n, k), OperandWritten(s, n, k));
    assert depth(NextPc) >= 1;
    if s.decode.Sending? {
      var i := s.decode.n;
      assert Stretch(c, OperandStream(i), s.operands[i], OperandRead(s, n, i), OperandWritten(s, n, i));
      assert depth(Operand(i)) >= 1;
    }
  }

  lemma StaysWithin(s: State, a: Agent, depth: PipeName -> nat, n: Progress, k: nat, j: nat)
    requires |s.operands| == OPERANDS && AgentStep(s, a, depth).Some? && Within(s, n, k, j)
    requires a == ExecThread ==> (n.executed < k || !Ready(s)) && AgentStep(s, a, depth).value.fetch == s.fetch
    requires a == FetchThread ==> n.taken <= j
    ensures Within(AgentStep(s, a, depth).value, Advance(s, a, n), k, j)
  {
    assert a == ExecThread && !Ready(s) ==> s.exec.Reading?;
    hide ExecStep, OperandValue;
  }

  /** So some continuation brings fetch to instruction j before instruction k is performed. */
  lemma {:induction false} LookAhead(reg: RegFile, mem: Memory, start: Word, schedule: seq<Agent>, depth: PipeName -> nat,
                                     n: Progress, k: nat, j: nat)
    returns (longer: seq<Agent>, n': Progress)
    requires Conforming(Reference(reg, mem, start)) && FetchesSequentially(reg, mem, start, depth) && DepthsPositive(depth)
    requires k < j <= k + Window(depth) && StraightLine(Reference(reg, mem, start), k, j) && !After(Reference(reg, mem, start), k).halt
    requires InvAndLoads(reg, mem, start, schedule, depth, n)
    requires Within(StateAfter(reg, mem, start, schedule, depth), n, k, j)
    ensures InvAndLoads(reg, mem, start, longer, depth, n')
    ensures LooksAhead(StateAfter(reg, mem, start, longer, depth), n', k, j)
    decreases Limit(k, depth) - Effort(StateAfter(reg, mem, start, schedule, depth), n)
  {
    var c, s := Reference(reg, mem, start), StateAfter(reg, mem, start, schedule, depth);
    if LooksAhead(s, n, k, j) {
      longer, n' := schedule, n;
    } else {
      if After(c, n.executed).halt {
        HaltedStays(c, n.executed, k);
      }
      var a := NearerMoves(c, s, depth, n, k, j);
      NextWordAgrees(reg, mem, start, schedule, depth, n);
      StepKeepsLoads(reg, mem, start, schedule, a, depth, n);
      if a == ExecThread {
        ExecEffortGrows(c, s, depth, n);
      }
      hide Inv, Conforming, FetchOk, InitialState, Reference, Step, After, Effort, Limit, AgentStep, Within,
           FetchesSequentially, StraightLine, DepthsPositive, Window, LooksAhead, Words, StateAfter, Fits;
      StaysWithin(s, a, depth, n, k, j);
      EffortGrows(c, s, a, depth, n);
      RunFits(reg, mem, start, schedule, depth);
      EffortLimited(c, s, depth, n, k);
      OneMoreWord(reg, mem, start, schedule, a, depth);
      longer, n' := LookAhead(reg, mem, start, schedule + [a], depth, Advance(s, a, n), k, j);
    }
  }

  lemma InitialLoads(reg: RegFile, mem: Memory, start: Word, depth: PipeName -> nat, k: nat, j: nat)
    returns (n: Progress)
    requires Conforming(Reference(reg, mem, start))
    ensures InvAndLoads(reg, mem, start, [], depth, n)
    ensures Within(StateAfter(reg, mem, start, [], depth), n, k, j)
  {
    n := Progress(0, 0, 0, 0);
    InitialInv(reg, mem, start);
    hide Inv, Reference, Conforming;
  }

  /** Memory is still that of instruction k when fetch reads the word of instruction j. */
  lemma WordLookedUp(c: Cpu, s: State, n: Progress, k: nat, j: nat)
    requires Inv(c, s, n) && LooksAhead(s, n, k, j) && FetchOk(c, s, n)
    ensures After(c, k).mem[PcAt(c, j)] == IrAt(c, j)
  {
    hide After, PipesOk, StartOk, TokenOk, HaltOk, PcAt, IrAt;
  }

  /** If all interleavings fetch the sequential words, then the word of instruction j is in memory as soon as fetch can
      get to it: when the straight-line stretch leading to it begins, or a window before it. */
  lemma WordIsThere(reg: RegFile, mem: Memory, start: Word, depth: PipeName -> nat, k: nat, j: nat)
    requires Conforming(Reference(reg, mem, start)) && FetchesSequentially(reg, mem, start, depth) && DepthsPositive(depth)
    requires var c := Reference(reg, mem, start);
             k <= j <= k + Window(depth) && StraightLine(c, k, j) && !After(c, k).halt
    ensures var c := Reference(reg, mem, start); After(c, k).mem[PcAt(c, j)] == IrAt(c, j)
  {
    hide Step, Execute, After, StraightLine, Conforming, FetchesSequentially, Reference;
    if k < j {
      var c := Reference(reg, mem, start);
      hide *;
      var n := InitialLoads(reg, mem, start, depth, k, j);
      var longer;
      longer, n := LookAhead(reg, mem, start, [], depth, n, k, j);
      NextWordAgrees(reg, mem, start, longer, depth, n);
      WordLookedUp(c, StateAfter(reg, mem, start, longer, depth), n, k, j);
    }
  }

  lemma AgreeingFetchesNeedSafeStores(reg: RegFile, mem: Memory, start: Word, depth: PipeName -> nat)
    requires Conforming(Reference(reg, mem, start)) && FetchesSequentially(reg, mem, start, depth) && DepthsPositive(depth)
    ensures StoresSafeWithin(Reference(reg, mem, start), Window(depth))
  {
    var c := Reference(reg, mem, start);
    forall k: nat, j: nat | k < j <= k + Window(depth) && StraightLine(c, k, j) && Op(IrAt(c, k)) == 4
      ensures After(c, k).mem[PcAt(c, j)] == After(c, k + 1).mem[PcAt(c, j)]
    {
      if After(c, k).halt {
        HaltedStays(c, k, k + 1);
      } else {
        assert Straight(IrAt(c, k));
        StraightAdvances(c, k);
        assert StraightLine(c, k + 1, j);
        hide Step, After, Window, Reference, Conforming, FetchesSequentially, StraightLine, DepthsPositive;
        WordIsThere(reg, mem, start, depth, k, j);
        WordIsThere(reg, mem, start, depth, k + 1, j);
      }
    }
  }

  /** The exact condition under which fetching ahead is harmless, for given depths: no store changes a word that is
      executed within the window after it, in the same straight-line stretch. */
  lemma FetchIsSequentialIffStoresSafeWithin(reg: RegFile, mem: Memory, start: Word, depth: PipeName -> nat)
    requires Conforming(Reference(reg, mem, start)) && DepthsPositive(depth)
    ensures FetchesSequentially(reg, mem, start, depth) <==> StoresSafeWithin(Reference(reg, mem, start), Window(depth))
  {
    if FetchesSequentially(reg, mem, start, depth) {
      AgreeingFetchesNeedSafeStores(reg, mem, start, depth);
    }
    if StoresSafeWithin(Reference(reg, mem, start), Window(depth)) {
      forall schedule: seq<Agent>
        ensures WordsAgree(Reference(reg, mem, start), Words(reg, mem, start, schedule, depth))
      {
        var _ := SafeStoresAgree(reg, mem, start, schedule, depth);
      }
    }
  }

  lemma {:induction false} ShallowestOfConstant(depth: PipeName -> nat, w: nat, n: nat)
    requires forall p :: depth(p) == w
    ensures Shallowest(depth, n) == w
  {
    if n > 0 {
      ShallowestOfConstant(depth, w, n - 1);
    }
  }

  /** For all depths together: no store changes any word executed later in the same straight-line stretch. */
  lemma FetchIsSequentialIffStoresSafe(reg: RegFile, mem: Memory, start: Word)
    requires Conforming(Reference(reg, mem, start))
    ensures (forall depth: PipeName -> nat :: DepthsPositive(depth) ==> FetchesSequentially(reg, mem, start, depth))
            <==> StoresSafe(Reference(reg, mem, start))
  {
    var c := Reference(reg, mem, start);
    hide Step, After, StraightLine, Reference, FetchesSequentially, Window, Conforming;
    if forall depth: PipeName -> nat :: DepthsPositive(depth) ==> FetchesSequentially(reg, mem, start, depth) {
      forall k: nat, j: nat | k < j && StraightLine(c, k, j) && Op(IrAt(c, k)) == 4
        ensures After(c, k).mem[PcAt(c, j)] == After(c, k + 1).mem[PcAt(c, j)]
      {
        var depth := DepthsFor(j);
        FetchIsSequentialIffStoresSafeWithin(reg, mem, start, depth);
      }
    }
    if StoresSafe(c) {
      forall depth: PipeName -> nat | DepthsPositive(depth) ensures FetchesSequentially(reg, mem, start, depth) {
        FetchIsSequentialIffStoresSafeWithin(reg, mem, start, depth);
      }
    }
  }

  lemma DepthsFor(j: nat) returns (depth: PipeName -> nat)
    ensures DepthsPositive(depth) && Window(depth) >= j
  {
    depth := _ => j + 1;
    ShallowestOfConstant(depth, j + 1, OPERANDS - 1);
  }
}
