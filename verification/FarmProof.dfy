/** Ownership of the slots, and what the slots in flight stand for, in every reachable state of the farm. */
module FarmProof {
  import opened Occurrences
  import opened FreeList
  import opened Farm

  // ----- Who holds which slot -----

  function ManagerHand(s: State): seq<nat> {
    if s.manager.Granting? && s.manager.ret >= 0 then [s.manager.ret] else []
  }
  function GrantHand(s: State): seq<nat> { if s.grants != [] && s.grants[0] >= 0 then [s.grants[0]] else [] }
  function InputHand(s: State): seq<nat> {
    if s.input.Filling? || s.input.SendingJob? then [s.input.f] else []
  }
  function WorkerHand(w: WorkerState): seq<nat> { if w.Idle? then [] else [w.f] }
  function OutputBusy(s: State): seq<nat> {
    if s.output.GotResult? || s.output.SentRow? || s.output.SentCol? then [s.output.f] else []
  }
  function OutputDone(s: State): seq<nat> {
    if s.output.SentData? || s.output.SentPut? then [s.output.f] else []
  }

  /** Is f the slot of a job that has been sent but whose result has not been emitted in full? As a count. */
  ghost function Working(s: State, f: nat): nat
    requires |s.workers| == WORKERS
  {
    N(s.jobQueue, f) + InHands(s.workers, f) + N(s.results, f) + N(OutputBusy(s), f)
  }

  ghost function InHands(ws: seq<WorkerState>, f: nat): nat
    requires |ws| == WORKERS
  {
    N(WorkerHand(ws[0]), f) + N(WorkerHand(ws[1]), f) + N(WorkerHand(ws[2]), f) + N(WorkerHand(ws[3]), f)
  }

  /** The same for every place a slot can be in, the working ones aside. */
  ghost function Resting(s: State, chain: seq<nat>, f: nat): nat {
    N(chain, f) + N(ManagerHand(s), f) + N(GrantHand(s), f) + N(InputHand(s), f) + N(OutputDone(s), f) + N(s.puts, f)
  }

  /** Each of the ten slots is in exactly one place. */
  ghost predicate OwnOk(s: State, chain: seq<nat>)
    requires |s.workers| == WORKERS
  {
    forall f: nat :: Resting(s, chain, f) + Working(s, f) == if f < FREE_LIST_SIZE then 1 else 0
  }

  ghost predicate ListOk(s: State, chain: seq<nat>) {
    && |s.next| == FREE_LIST_SIZE
    && match s.manager
       case Initialising(i) =>
         i < FREE_LIST_SIZE && AllSlots(chain) && forall k :: 0 <= k < i ==> s.next[k] == k + 1
       case _ => IsChain(s.next, s.head, chain)
  }

  ghost function Count(q: seq<Command>, c: Command): nat { multiset(q)[c] }

  lemma TakeCommand(q: seq<Command>, c: Command)
    requires q != []
    ensures Count(q, c) == Count(q[1..], c) + if q[0] == c then 1 else 0
  {
    Split(q);
  }

  lemma AddCommand(q: seq<Command>, x: Command, c: Command)
    ensures Count(q + [x], c) == Count(q, c) + if x == c then 1 else 0
  {
  }

  /** One request of the input module, and one of the output module, is under way at a time. */
  ghost predicate ProtocolOk(s: State) {
    && Count(s.requests, GetSlot) + (if s.manager.Granting? then 1 else 0) + |s.grants|
       == (if s.input.Requested? then 1 else 0)
    && Count(s.requests, PutSlot) + (if s.manager.AwaitPut? then 1 else 0)
       == |s.puts| + (if s.output.SentPut? then 1 else 0)
  }

  // ----- What a job means -----

  /** The sum of the first k products of row `row` of a with row `col` of b. */
  function Dot(p: Problem, row: nat, col: nat, k: nat): nat {
    if k == 0 then 0
    else Dot(p, row, col, k - 1) + At(p.a, row * p.d + (k - 1), 0) * At(p.b, col * p.d + (k - 1), 0)
  }

  predicate JobFor(p: Problem, job: Job) {
    && job.row < p.d && job.col < p.d && job.dimension == p.d
    && job.a == job.row * p.d && job.b == job.col * p.d
  }

  predicate Done(p: Problem, job: Job) { job.result == Dot(p, job.row, job.col, p.d) }

  ghost predicate WorkerOk(p: Problem, jobs: seq<Job>, w: WorkerState) {
    match w
    case Multiplying(f, d, a, b, k, acc) =>
      var job := JobAt(jobs, f);
      && d == p.d && a == job.a && b == job.b && acc == Dot(p, job.row, job.col, k)
      && k <= d && (k < 4 * (d / 4) ==> k % 4 == 0)
    case Finished(f) => Done(p, JobAt(jobs, f))
    case _ => true
  }

  ghost predicate AllDone(p: Problem, jobs: seq<Job>, q: seq<nat>) {
    forall k :: 0 <= k < |q| ==> Done(p, JobAt(jobs, q[k]))
  }

  ghost predicate WorkingOk(s: State)
    requires |s.workers| == WORKERS
  {
    forall f: nat :: Working(s, f) > 0 ==> JobFor(s.current, JobAt(s.jobs, f))
  }

  ghost predicate ResultsOk(s: State)
    requires |s.workers| == WORKERS
  {
    && (forall w :: 0 <= w < WORKERS ==> WorkerOk(s.current, s.jobs, s.workers[w]))
    && AllDone(s.current, s.jobs, s.results) && AllDone(s.current, s.jobs, OutputBusy(s))
  }

  // ----- The input module's loops -----

  /** The environment's latest problem, perhaps behind some of dimension 0, has not been taken yet. */
  ghost predicate Pending(s: State) {
    && s.dimensions != [] && s.dimensions[|s.dimensions| - 1] == s.current.d
    && (forall k :: 0 <= k < |s.dimensions| - 1 ==> s.dimensions[k] == 0)
    && s.data == s.current.a + s.current.b
  }

  ghost predicate Loaded(s: State)
    requires WellShaped(s) && s.current.Valid()
  {
    var n := s.current.d * s.current.d;
    s.aMatrix[..n] == s.current.a && s.bMatrix[..n] == s.current.b && s.dimensions == [] && s.data == []
  }

  /** The loop indices and offsets, with the whole problem loaded. */
  ghost predicate InCell(s: State, d: nat, i: nat, j: nat, io: nat, jo: nat)
    requires WellShaped(s) && s.current.Valid()
  {
    d == s.current.d && i < d && j < d && io == i * d && jo == j * d && Loaded(s)
  }

  ghost predicate InputOk(s: State)
    requires WellShaped(s) && s.current.Valid()
  {
    var p := s.current;
    match s.input
    case AwaitDimension => Pending(s) || Loaded(s)
    case LoadA(d, k) =>
      if s.dimensions != [] then d == 0 && k == 0 && Pending(s)
      else d == p.d && k <= d * d && s.data == p.a[k..] + p.b && s.aMatrix[..k] == p.a[..k]
    case LoadB(d, k) =>
      if s.dimensions != [] then d == 0 && k == 0 && Pending(s)
      else d == p.d && k <= d * d && s.data == p.b[k..] && s.aMatrix[..d * d] == p.a && s.bMatrix[..k] == p.b[..k]
    case Requesting(d, i, j, io, jo) => InCell(s, d, i, j, io, jo)
    case Requested(d, i, j, io, jo) => InCell(s, d, i, j, io, jo)
    case Filling(d, i, j, io, jo, f) => InCell(s, d, i, j, io, jo)
    case SendingJob(d, i, j, io, jo, f) =>
      InCell(s, d, i, j, io, jo) && JobAt(s.jobs, f) == Job(d, i, j, io, jo, JobAt(s.jobs, f).result)
  }

  // ----- Every cell once -----

  /** The cells before (i, j) in row-major order. */
  ghost function FirstCells(d: nat, i: nat, j: nat): multiset<(nat, nat)>
    decreases i, j
  {
    if j > 0 then FirstCells(d, i, j - 1) + multiset{(i, j - 1)}
    else if i > 0 then FirstCells(d, i - 1, d)
    else multiset{}
  }

  /** The cells whose jobs the input module has sent. */
  ghost function Sent(s: State): multiset<(nat, nat)> {
    match s.input
    case AwaitDimension => if s.dimensions == [] then FirstCells(s.current.d, s.current.d, 0) else multiset{}
    case LoadA(_, _) => multiset{}
    case LoadB(_, _) => multiset{}
    case Requesting(d, i, j, _, _) => FirstCells(d, i, j)
    case Requested(d, i, j, _, _) => FirstCells(d, i, j)
    case Filling(d, i, j, _, _, _) => FirstCells(d, i, j)
    case SendingJob(d, i, j, _, _, _) => FirstCells(d, i, j)
  }

  function Cell(jobs: seq<Job>, f: nat): (nat, nat) { (JobAt(jobs, f).row, JobAt(jobs, f).col) }

  ghost function Cells(jobs: seq<Job>, q: seq<nat>): multiset<(nat, nat)> {
    if q == [] then multiset{} else multiset{Cell(jobs, q[0])} + Cells(jobs, q[1..])
  }

  ghost function CellsInHands(jobs: seq<Job>, ws: seq<WorkerState>): multiset<(nat, nat)>
    requires |ws| == WORKERS
  {
    Cells(jobs, WorkerHand(ws[0])) + Cells(jobs, WorkerHand(ws[1]))
    + Cells(jobs, WorkerHand(ws[2])) + Cells(jobs, WorkerHand(ws[3]))
  }

  ghost function WorkingCells(s: State): multiset<(nat, nat)>
    requires |s.workers| == WORKERS
  {
    Cells(s.jobs, s.jobQueue) + CellsInHands(s.jobs, s.workers) + Cells(s.jobs, s.results) + Cells(s.jobs, OutputBusy(s))
  }

  /** The first n (row, col) pairs on the output pipes. */
  ghost function EmittedCells(e: Emitted, n: nat): multiset<(nat, nat)>
    requires n <= |e.rows| && n <= |e.cols|
  {
    if n == 0 then multiset{} else EmittedCells(e, n - 1) + multiset{(e.rows[n - 1], e.cols[n - 1])}
  }

  ghost predicate ValuesOk(p: Problem, e: Emitted) {
    && |e.data| <= |e.cols| <= |e.rows|
    && forall k :: 0 <= k < |e.data| ==> e.data[k] == Dot(p, e.rows[k], e.cols[k], p.d)
  }

  ghost predicate EmitOk(s: State) {
    var e := s.emitted;
    && ValuesOk(s.current, e)
    && |e.rows| == |e.data| + (if s.output.SentRow? || s.output.SentCol? then 1 else 0)
    && |e.cols| == |e.data| + (if s.output.SentCol? then 1 else 0)
    && (s.output.SentRow? || s.output.SentCol? ==> e.rows[|e.data|] == JobAt(s.jobs, s.output.f).row)
    && (s.output.SentCol? ==> e.cols[|e.data|] == JobAt(s.jobs, s.output.f).col)
  }

  /** Each cell sent is in one working slot or has been emitted, and only once. */
  ghost predicate CountOk(s: State)
    requires |s.workers| == WORKERS && ValuesOk(s.current, s.emitted)
  {
    WorkingCells(s) + EmittedCells(s.emitted, |s.emitted.data|) == Sent(s)
  }

  /** All d*d results, each cell once, each with its value. */
  ghost predicate Complete(p: Problem, e: Emitted) {
    && p.Valid() && |e.rows| == |e.cols| == |e.data| == p.d * p.d && ValuesOk(p, e)
    && EmittedCells(e, |e.data|) == FirstCells(p.d, p.d, 0)
  }

  ghost predicate Inv(s: State, chain: seq<nat>) {
    && WellShaped(s) && s.current.Valid() && ListOk(s, chain) && OwnOk(s, chain) && ProtocolOk(s)
    && WorkingOk(s) && ResultsOk(s) && InputOk(s) && EmitOk(s) && CountOk(s)
    && forall k :: 0 <= k < |s.archive| ==> Complete(s.archive[k].0, s.archive[k].1)
  }

  /** Steps of the manager leave jobs, matrices and all queues of jobs alone. */
  lemma ManagerFrame(s: State, s': State)
    requires WellShaped(s) && WellShaped(s') && s.current.Valid() && WorkingOk(s) && ResultsOk(s) && InputOk(s) && EmitOk(s) && CountOk(s)
    requires s' == s.(next := s'.next, head := s'.head, requests := s'.requests, grants := s'.grants,
                      puts := s'.puts, manager := s'.manager)
    ensures s'.current.Valid() && WorkingOk(s') && ResultsOk(s') && InputOk(s') && EmitOk(s') && CountOk(s')
  {
  }

  ghost function NextChain(s: State, chain: seq<nat>): seq<nat> {
    if s.manager.AwaitCommand? && s.requests != [] && s.requests[0] == GetSlot && chain != [] then chain[1..]
    else if s.manager.AwaitPut? && s.puts != [] then [s.puts[0]] + chain
    else chain
  }

  /** A slot on its way back is not free already. */
  lemma ReturnedIsNotFree(s: State, chain: seq<nat>)
    requires |s.workers| == WORKERS && OwnOk(s, chain) && s.puts != []
    ensures s.puts[0] < FREE_LIST_SIZE && s.puts[0] !in chain
  {
    hide Working;
    var f := s.puts[0];
    assert Resting(s, chain, f) + Working(s, f) == if f < FREE_LIST_SIZE then 1 else 0;
    assert N(s.puts, f) > 0;
  }

  lemma ManagerKeepsList(s: State, chain: seq<nat>)
    requires WellShaped(s) && ListOk(s, chain) && OwnOk(s, chain)
    ensures ListOk(ManagerStep(s), NextChain(s, chain))
  {
    hide OwnOk;
    var s' := ManagerStep(s);
    match s.manager
    case Initialising(i) =>
      if i == FREE_LIST_SIZE - 1 {
        InitialChain(s'.next, chain, 0);
        assert chain[0..] == chain;
      }
    case AwaitPut =>
      if s.puts != [] {
        ReturnedIsNotFree(s, chain);
        ChainFrame(s.next, s.head, chain, s.puts[0], s.head);
        assert ([s.puts[0]] + chain)[1..] == chain;
      }
    case _ =>
  }

  lemma ManagerKeepsProtocol(s: State)
    requires ProtocolOk(s)
    ensures ProtocolOk(ManagerStep(s))
  {
    hide Count;
    if s.requests != [] {
      TakeCommand(s.requests, GetSlot);
      TakeCommand(s.requests, PutSlot);
    }
  }

  lemma WorkingFrame(s: State, s': State, f: nat)
    requires |s.workers| == WORKERS && s'.workers == s.workers
    requires s'.jobQueue == s.jobQueue && s'.results == s.results && s'.output == s.output
    ensures Working(s', f) == Working(s, f)
  {
  }

  /** How often a slot is held. */
  ghost function Held(s: State, chain: seq<nat>, f: nat): nat
    requires |s.workers| == WORKERS
  {
    Resting(s, chain, f) + Working(s, f)
  }

  lemma OwnKept(s: State, chain: seq<nat>, s': State, chain': seq<nat>)
    requires |s.workers| == |s'.workers| == WORKERS && OwnOk(s, chain)
    requires forall f: nat :: Held(s', chain', f) == Held(s, chain, f)
    ensures OwnOk(s', chain')
  {
    hide Resting, Working;
    forall f: nat ensures Resting(s', chain', f) + Working(s', f) == if f < FREE_LIST_SIZE then 1 else 0 {
      assert Held(s', chain', f) == Held(s, chain, f);
    }
  }

  /** The places the manager moves slots between. */
  ghost function ManagerSide(s: State, chain: seq<nat>, f: nat): nat {
    N(chain, f) + N(ManagerHand(s), f) + N(GrantHand(s), f) + N(s.puts, f)
  }

  lemma HeldByManagerSide(s: State, s': State, chain: seq<nat>, chain': seq<nat>, f: nat)
    requires |s.workers| == WORKERS && s'.workers == s.workers && s'.jobQueue == s.jobQueue && s'.results == s.results
    requires s'.output == s.output && s'.input == s.input
    requires ManagerSide(s', chain', f) == ManagerSide(s, chain, f)
    ensures Held(s', chain', f) == Held(s, chain, f)
  {
    WorkingFrame(s, s', f);
    hide Working, N;
  }

  lemma TakenFromChain(s: State, chain: seq<nat>, f: nat)
    requires WellShaped(s) && s.manager == AwaitCommand && IsChain(s.next, s.head, chain)
    ensures ManagerSide(ManagerStep(s), NextChain(s, chain), f) == ManagerSide(s, chain, f)
  {
    hide IsChain, N;
    ChainHead(s.next, s.head, chain);
    PushN([], 0, f);
    if chain != [] {
      PopN(chain, f);
    }
  }

  lemma Granted(s: State, chain: seq<nat>, f: nat)
    requires s.manager.Granting? && s.grants == []
    ensures ManagerSide(ManagerStep(s), chain, f) == ManagerSide(s, chain, f)
  {
    hide N;
    PushN([], 0, f);
  }

  lemma PutBack(s: State, chain: seq<nat>, f: nat)
    requires s.manager == AwaitPut
    ensures ManagerSide(ManagerStep(s), NextChain(s, chain), f) == ManagerSide(s, chain, f)
  {
    hide N, Set;
    if s.puts != [] {
      PopN(s.puts, f);
      PushN(chain, s.puts[0], f);
    }
  }

  lemma ManagerMovesSlots(s: State, chain: seq<nat>, f: nat)
    requires WellShaped(s) && ListOk(s, chain) && ProtocolOk(s)
    ensures Held(ManagerStep(s), NextChain(s, chain), f) == Held(s, chain, f)
  {
    hide Held, IsChain, Count, N, Set;
    var s' := ManagerStep(s);
    match s.manager {
      case AwaitCommand => TakenFromChain(s, chain, f);
      case Granting(ret) => Granted(s, chain, f);
      case AwaitPut => PutBack(s, chain, f);
      case Initialising(_) =>
    }
    hide ManagerSide;
    HeldByManagerSide(s, s', chain, NextChain(s, chain), f);
  }

  lemma ChainHead(next: seq<int>, head: int, chain: seq<nat>)
    requires IsChain(next, head, chain)
    ensures head == if chain == [] then -1 else chain[0]
  {
  }

  lemma ManagerKeepsInv(s: State, chain: seq<nat>)
    requires Inv(s, chain)
    ensures Inv(ManagerStep(s), NextChain(s, chain))
  {
    hide ListOk, OwnOk, ProtocolOk, WorkingOk, ResultsOk, InputOk, EmitOk, CountOk, NextChain;
    var s', chain' := ManagerStep(s), NextChain(s, chain);
    ManagerKeepsList(s, chain);
    ManagerKeepsProtocol(s);
    forall f: nat ensures Held(s', chain', f) == Held(s, chain, f) {
      ManagerMovesSlots(s, chain, f);
    }
    OwnKept(s, chain, s', chain');
    ManagerFrame(s, s');
  }

  // ----- The output module -----

  lemma OutputMovesSlots(s: State, chain: seq<nat>, f: nat)
    requires WellShaped(s)
    ensures Held(OutputStep(s), chain, f) == Held(s, chain, f)
  {
    hide N, InHands;
    PushN([], 0, f);
    match s.output
    case AwaitResult =>
      if s.results != [] {
        PopN(s.results, f);
      }
    case SentPut(g) => PushN(s.puts, g, f);
    case _ =>
  }

  lemma OutputOnlyShrinksWorking(s: State, f: nat)
    requires WellShaped(s)
    ensures Working(OutputStep(s), f) <= Working(s, f)
  {
    hide N, InHands;
    PushN([], 0, f);
    if s.output == AwaitResult && s.results != [] {
      PopN(s.results, f);
    }
  }

  lemma OutputKeepsWorking(s: State)
    requires WellShaped(s) && WorkingOk(s)
    ensures WorkingOk(OutputStep(s))
  {
    hide Working;
    var s' := OutputStep(s);
    forall f: nat | Working(s', f) > 0 ensures JobFor(s'.current, JobAt(s'.jobs, f)) {
      OutputOnlyShrinksWorking(s, f);
    }
  }

  lemma OutputKeepsResults(s: State)
    requires WellShaped(s) && ResultsOk(s)
    ensures ResultsOk(OutputStep(s))
  {
    hide Done, WorkerOk, JobAt;
  }

  /** Later rows and columns do not change the first n pairs. */
  lemma {:induction false} EmittedFrame(e: Emitted, e': Emitted, n: nat)
    requires n <= |e.rows| && n <= |e.cols| && e.rows <= e'.rows && e.cols <= e'.cols
    ensures EmittedCells(e', n) == EmittedCells(e, n)
  {
    if n > 0 {
      EmittedFrame(e, e', n - 1);
    }
  }

  lemma OutputKeepsEmitted(s: State)
    requires WellShaped(s) && ResultsOk(s) && EmitOk(s)
    ensures EmitOk(OutputStep(s))
  {
    hide WorkerOk;
    assert s.output.SentCol? ==> Done(s.current, JobAt(s.jobs, OutputBusy(s)[0]));
  }

  /** The output module takes a result: its cell moves to the module's hand. */
  lemma TakenFromResults(s: State)
    requires WellShaped(s) && s.output == AwaitResult && s.results != []
    ensures WorkingCells(OutputStep(s)) == WorkingCells(s)
  {
    hide CellsInHands, JobAt;
    assert Cells(s.jobs, s.results) == multiset{Cell(s.jobs, s.results[0])} + Cells(s.jobs, s.results[1..]);
    assert Cells(s.jobs, [s.results[0]]) == multiset{Cell(s.jobs, s.results[0])};
  }

  /** The third number of a triple is written: its cell moves from the module's hand to the emitted ones. */
  lemma TripleEmitted(s: State)
    requires WellShaped(s) && EmitOk(s) && EmitOk(OutputStep(s)) && s.output.SentCol?
    ensures WorkingCells(s) == WorkingCells(OutputStep(s)) + multiset{Cell(s.jobs, s.output.f)}
    ensures var e' := OutputStep(s).emitted;
            EmittedCells(e', |e'.data|) == EmittedCells(s.emitted, |s.emitted.data|) + multiset{Cell(s.jobs, s.output.f)}
  {
    hide CellsInHands, Cell, ValuesOk;
    EmittedFrame(s.emitted, OutputStep(s).emitted, |s.emitted.data|);
    OneCell(s.jobs, s.output.f);
    NoCells(s.jobs);
    assert Cell(s.jobs, s.output.f) == (s.emitted.rows[|s.emitted.data|], s.emitted.cols[|s.emitted.data|]) by {
      TripleIsCell(s);
    }
    hide Cells;
  }

  lemma TripleIsCell(s: State)
    requires EmitOk(s) && s.output.SentCol?
    ensures Cell(s.jobs, s.output.f) == (s.emitted.rows[|s.emitted.data|], s.emitted.cols[|s.emitted.data|])
  {
  }

  lemma OneCell(jobs: seq<Job>, f: nat)
    ensures Cells(jobs, [f]) == multiset{Cell(jobs, f)}
  {
  }

  lemma OutputKeepsCount(s: State, s': State)
    requires s' == OutputStep(s) && WellShaped(s) && WellShaped(s') && EmitOk(s) && EmitOk(s') && CountOk(s)
    ensures CountOk(s')
  {
    hide Sent, Cells, CellsInHands, EmittedCells, Cell;
    SentFrame(s, s');
    if s.output.SentCol? {
      TripleEmitted(s);
    } else {
      EmittedFrame(s.emitted, s'.emitted, |s.emitted.data|);
      if s.output == AwaitResult && s.results != [] {
        TakenFromResults(s);
      } else {
        assert OutputBusy(s') == OutputBusy(s);
        assert WorkingCells(s') == WorkingCells(s);
      }
    }
    hide WorkingCells, OutputStep;
  }

  lemma InputFrame(s: State, s': State)
    requires WellShaped(s) && s.current.Valid() && InputOk(s)
    requires s'.input == s.input && s'.current == s.current && s'.jobs == s.jobs && WellShaped(s')
    requires s'.dimensions == s.dimensions && s'.data == s.data && s'.aMatrix == s.aMatrix && s'.bMatrix == s.bMatrix
    ensures InputOk(s')
  {
  }

  lemma SentFrame(s: State, s': State)
    requires s'.input == s.input && s'.dimensions == s.dimensions && s'.current == s.current
    ensures Sent(s') == Sent(s)
  {
  }

  lemma OutputKeepsProtocol(s: State)
    requires ProtocolOk(s)
    ensures ProtocolOk(OutputStep(s))
  {
    hide Count;
    AddCommand(s.requests, PutSlot, GetSlot);
    AddCommand(s.requests, PutSlot, PutSlot);
  }

  lemma OutputKeepsInv(s: State, chain: seq<nat>)
    requires Inv(s, chain)
    ensures Inv(OutputStep(s), chain)
  {
    var s' := OutputStep(s);
    hide OwnOk, ProtocolOk, WorkingOk, ResultsOk, InputOk, EmitOk, CountOk, IsChain;
    InputFrame(s, s');
    assert ListOk(s', chain);
    hide ListOk;
    OutputKeepsProtocol(s);
    OutputKeepsWorking(s);
    OutputKeepsResults(s);
    OutputKeepsEmitted(s);
    OutputKeepsCount(s, s');
    forall f: nat ensures Held(s', chain, f) == Held(s, chain, f) {
      OutputMovesSlots(s, chain, f);
    }
    OwnKept(s, chain, s', chain);
  }

  // ----- The workers -----

  lemma HandChanges(ws: seq<WorkerState>, w: nat, x: WorkerState, f: nat)
    requires |ws| == WORKERS && w < WORKERS
    ensures InHands(ws[w := x], f) + N(WorkerHand(ws[w]), f) == InHands(ws, f) + N(WorkerHand(x), f)
  {
    hide N;
    assert w in {0, 1, 2, 3};
  }

  lemma CellsChange(jobs: seq<Job>, ws: seq<WorkerState>, w: nat, x: WorkerState)
    requires |ws| == WORKERS && w < WORKERS
    ensures WorkerHand(x) == WorkerHand(ws[w]) ==> CellsInHands(jobs, ws[w := x]) == CellsInHands(jobs, ws)
    ensures ws[w].Idle? ==> CellsInHands(jobs, ws[w := x]) == CellsInHands(jobs, ws) + Cells(jobs, WorkerHand(x))
    ensures x.Idle? ==> CellsInHands(jobs, ws) == CellsInHands(jobs, ws[w := x]) + Cells(jobs, WorkerHand(ws[w]))
  {
    NoCells(jobs);
    hide Cells;
    assert w in {0, 1, 2, 3};
  }

  lemma WorkerMovesSlots(s: State, w: nat, f: nat)
    requires WellShaped(s) && w < WORKERS
    ensures Working(WorkerStep(s, w), f) == Working(s, f)
  {
    hide N, InHands;
    var s' := WorkerStep(s, w);
    HandChanges(s.workers, w, s'.workers[w], f);
    PushN([], 0, f);
    if s.workers[w] == Idle && s.jobQueue != [] {
      PopN(s.jobQueue, f);
    }
    if s.workers[w].Finished? {
      PushN(s.results, s.workers[w].f, f);
    }
    assert s.workers[w := s.workers[w]] == s.workers;
  }

  /** Writing the result of slot g leaves the other jobs, and the cell of g, as they are. */
  lemma WorkerWritesItsResult(s: State, w: nat, g: nat)
    requires WellShaped(s) && w < WORKERS
    ensures JobAt(WorkerStep(s, w).jobs, g) == JobAt(s.jobs, g)
            || (s.workers[w].Multiplying? && s.workers[w].f == g
                && JobAt(WorkerStep(s, w).jobs, g) == JobAt(s.jobs, g).(result := s.workers[w].acc))
  {
  }

  /** Some worker's job is in progress, so the whole problem is in the matrices. */
  lemma WorkingMeansLoaded(s: State, w: nat)
    requires WellShaped(s) && s.current.Valid() && InputOk(s) && EmitOk(s) && CountOk(s)
    requires w < WORKERS && !s.workers[w].Idle?
    ensures Loaded(s)
  {
    CellInHands(s, w);
    hide Cells, CellsInHands, EmittedCells, FirstCells, InCell, ValuesOk, WellShaped;
    assert Cell(s.jobs, s.workers[w].f) in WorkingCells(s);
    SomethingSent(s, Cell(s.jobs, s.workers[w].f));
    hide WorkingCells;
  }

  lemma SomethingSent(s: State, c: (nat, nat))
    requires WellShaped(s) && s.current.Valid() && InputOk(s) && c in Sent(s)
    ensures Loaded(s)
  {
    hide FirstCells, JobAt;
  }

  lemma CellInHands(s: State, w: nat)
    requires |s.workers| == WORKERS && w < WORKERS && !s.workers[w].Idle?
    ensures Cell(s.jobs, s.workers[w].f) in CellsInHands(s.jobs, s.workers)
  {
    assert Cell(s.jobs, s.workers[w].f) in Cells(s.jobs, WorkerHand(s.workers[w]));
    hide Cells;
    assert w in {0, 1, 2, 3};
  }

  lemma IndexBelow(d: nat, row: nat, k: nat)
    requires row < d && k < d
    ensures row * d + k < d * d
  {
    RowBelow(d, row + 1);
    assert (row + 1) * d == row * d + d;
  }

  lemma RowBelow(d: nat, row: nat)
    requires row <= d
    ensures row * d <= d * d
  {
  }

  lemma EntryRead(m: seq<nat>, n: nat, source: seq<nat>, i: nat)
    requires n <= |m| && m[..n] == source && i < n
    ensures At(m, i, 0) == At(source, i, 0)
  {
    assert m[..n][i] == m[i];
  }

  /** A product read from the matrices is one of the dot product. */
  lemma ProductOfProblem(s: State, row: nat, col: nat, k: nat)
    requires WellShaped(s) && s.current.Valid() && Loaded(s)
    requires row < s.current.d && col < s.current.d && k < s.current.d
    ensures var p := s.current;
            Product(s, row * p.d, col * p.d, k) == At(p.a, row * p.d + k, 0) * At(p.b, col * p.d + k, 0)
  {
    hide At;
    var p := s.current;
    IndexBelow(p.d, row, k);
    IndexBelow(p.d, col, k);
    EntryRead(s.aMatrix, p.d * p.d, p.a, row * p.d + k);
    EntryRead(s.bMatrix, p.d * p.d, p.b, col * p.d + k);
  }

  lemma OneProduct(s: State, row: nat, col: nat, k: nat)
    requires WellShaped(s) && s.current.Valid() && Loaded(s)
    requires row < s.current.d && col < s.current.d && k < s.current.d
    ensures var p := s.current;
            Dot(p, row, col, k) + Product(s, row * p.d, col * p.d, k) == Dot(p, row, col, k + 1)
  {
    ProductOfProblem(s, row, col, k);
  }

  lemma JobProduct(s: State, job: Job, k: nat)
    requires WellShaped(s) && s.current.Valid() && Loaded(s) && JobFor(s.current, job) && k < s.current.d
    ensures Dot(s.current, job.row, job.col, k) + Product(s, job.a, job.b, k) == Dot(s.current, job.row, job.col, k + 1)
  {
    hide Dot, Product, Loaded;
    OneProduct(s, job.row, job.col, k);
  }

  lemma FourProducts(s: State, job: Job, k: nat)
    requires WellShaped(s) && s.current.Valid() && Loaded(s) && JobFor(s.current, job) && k + 3 < s.current.d
    ensures var p, a, b := s.current, job.a, job.b;
            Dot(p, job.row, job.col, k)
            + ((Product(s, a, b, k) + Product(s, a, b, k + 1)) + (Product(s, a, b, k + 2) + Product(s, a, b, k + 3)))
            == Dot(p, job.row, job.col, k + 4)
  {
    hide Dot, Product, Loaded, JobFor;
    JobProduct(s, job, k);
    JobProduct(s, job, k + 1);
    JobProduct(s, job, k + 2);
    JobProduct(s, job, k + 3);
  }

  lemma WorkerWrites(s: State, w: nat)
    requires WellShaped(s) && w < WORKERS && s.workers[w].Multiplying? && s.workers[w].k == s.current.d
    requires WorkerOk(s.current, s.jobs, s.workers[w]) && s.workers[w].f < |s.jobs|
    ensures WorkerOk(s.current, WorkerStep(s, w).jobs, WorkerStep(s, w).workers[w])
  {
    hide Dot, Product;
  }

  /** The unrolled loop and the loop for the rest both add up the dot product. */
  lemma WorkerAddsUp(s: State, w: nat)
    requires WellShaped(s) && s.current.Valid() && Loaded(s) && w < WORKERS && s.workers[w].Multiplying?
    requires JobFor(s.current, JobAt(s.jobs, s.workers[w].f)) && WorkerOk(s.current, s.jobs, s.workers[w])
    requires s.workers[w].f < |s.jobs|
    ensures WorkerOk(s.current, WorkerStep(s, w).jobs, WorkerStep(s, w).workers[w])
  {
    hide Dot, Product, Loaded, JobFor, JobAt;
    var p, job, k := s.current, JobAt(s.jobs, s.workers[w].f), s.workers[w].k;
    if k < 4 * (p.d / 4) {
      assert k + 3 < p.d;
      FourProducts(s, job, k);
    } else if k < p.d {
      JobProduct(s, job, k);
    } else {
      WorkerWrites(s, w);
    }
  }

  /** The slot in a worker's hand is nowhere else. */
  lemma HeldAlone(s: State, chain: seq<nat>, w: nat)
    requires WellShaped(s) && OwnOk(s, chain) && w < WORKERS && !s.workers[w].Idle?
    ensures var f := s.workers[w].f;
            && f < FREE_LIST_SIZE && Working(s, f) > 0 && N(s.results, f) == 0 && N(OutputBusy(s), f) == 0
            && forall v :: 0 <= v < WORKERS && v != w ==> N(WorkerHand(s.workers[v]), f) == 0
  {
    hide N, Resting, InHands;
    var f := s.workers[w].f;
    assert Resting(s, chain, f) + Working(s, f) == if f < FREE_LIST_SIZE then 1 else 0;
    PushN([], f, f);
    OneHand(s.workers, w, f);
  }

  lemma OneHand(ws: seq<WorkerState>, w: nat, f: nat)
    requires |ws| == WORKERS && w < WORKERS && N(WorkerHand(ws[w]), f) == 1
    ensures InHands(ws, f) >= 1
    ensures InHands(ws, f) == 1 ==> forall v :: 0 <= v < WORKERS && v != w ==> N(WorkerHand(ws[v]), f) == 0
  {
    hide N;
    assert w in {0, 1, 2, 3};
  }

  /** What a worker's step can do to the jobs. */
  ghost predicate OnlyResultOf(jobs: seq<Job>, jobs': seq<Job>, f: nat) {
    && |jobs'| == |jobs|
    && (forall g: nat :: g != f ==> JobAt(jobs', g) == JobAt(jobs, g))
    && (forall g: nat :: JobAt(jobs', g) == JobAt(jobs, g).(result := JobAt(jobs', g).result))
  }

  lemma DoneKept(p: Problem, jobs: seq<Job>, jobs': seq<Job>, q: seq<nat>, f: nat)
    requires AllDone(p, jobs, q) && OnlyResultOf(jobs, jobs', f) && N(q, f) == 0
    ensures AllDone(p, jobs', q)
  {
    hide Done;
    forall k | 0 <= k < |q| ensures Done(p, JobAt(jobs', q[k])) {
      assert q[k] != f;
    }
  }

  lemma WorkerKept(p: Problem, jobs: seq<Job>, jobs': seq<Job>, x: WorkerState, f: nat)
    requires WorkerOk(p, jobs, x) && OnlyResultOf(jobs, jobs', f) && N(WorkerHand(x), f) == 0
    ensures WorkerOk(p, jobs', x)
  {
    hide Dot;
  }

  lemma WorkerTouches(s: State, w: nat)
    requires WellShaped(s) && w < WORKERS
    ensures var s' := WorkerStep(s, w);
            && (if s.workers[w].Idle? then s'.jobs == s.jobs else OnlyResultOf(s.jobs, s'.jobs, s.workers[w].f))
            && s'.workers == s.workers[w := s'.workers[w]]
  {
  }

  lemma WorkerKeepsOwnState(s: State, w: nat)
    requires WellShaped(s) && s.current.Valid() && w < WORKERS && WorkerOk(s.current, s.jobs, s.workers[w])
    requires !s.workers[w].Idle? ==>
      Loaded(s) && s.workers[w].f < |s.jobs| && JobFor(s.current, JobAt(s.jobs, s.workers[w].f))
    ensures WorkerOk(s.current, WorkerStep(s, w).jobs, WorkerStep(s, w).workers[w])
  {
    if s.workers[w].Multiplying? {
      WorkerAddsUp(s, w);
    }
    hide Loaded;
  }

  /** The other workers' jobs, and the results under way, are not affected by worker w's step. */
  lemma OthersUnaffected(s: State, chain: seq<nat>, w: nat)
    requires WellShaped(s) && OwnOk(s, chain) && ResultsOk(s) && w < WORKERS && !s.workers[w].Idle?
    ensures var s', p := WorkerStep(s, w), s.current;
            && AllDone(p, s'.jobs, s.results) && AllDone(p, s'.jobs, OutputBusy(s))
            && forall v :: 0 <= v < WORKERS && v != w ==> WorkerOk(p, s'.jobs, s'.workers[v])
  {
    hide OwnOk, WorkerOk, AllDone, OnlyResultOf, Working, WorkerStep, N;
    var s', p, f := WorkerStep(s, w), s.current, s.workers[w].f;
    WorkerTouches(s, w);
    HeldAlone(s, chain, w);
    forall v | 0 <= v < WORKERS && v != w ensures WorkerOk(p, s'.jobs, s'.workers[v]) {
      WorkerKept(p, s.jobs, s'.jobs, s.workers[v], f);
    }
    DoneKept(p, s.jobs, s'.jobs, s.results, f);
    DoneKept(p, s.jobs, s'.jobs, OutputBusy(s), f);
  }

  lemma IdleKeepsResults(s: State, w: nat)
    requires WellShaped(s) && ResultsOk(s) && w < WORKERS && s.workers[w].Idle?
    ensures ResultsOk(WorkerStep(s, w))
  {
    hide Done;
  }

  lemma WorkerKeepsResults(s: State, chain: seq<nat>, w: nat)
    requires WellShaped(s) && s.current.Valid() && OwnOk(s, chain) && WorkingOk(s) && ResultsOk(s) && w < WORKERS
    requires !s.workers[w].Idle? ==> Loaded(s)
    ensures ResultsOk(WorkerStep(s, w))
  {
    hide Loaded, OwnOk, Working, AllDone, N, JobFor;
    if s.workers[w].Idle? {
      IdleKeepsResults(s, w);
    } else {
      var s' := WorkerStep(s, w);
      HeldAlone(s, chain, w);
      assert JobFor(s.current, JobAt(s.jobs, s.workers[w].f));
      WorkerKeepsOwnState(s, w);
      OthersUnaffected(s, chain, w);
      ResultPushed(s, w);
      assert s'.output == s.output && s'.current == s.current;
      hide WorkerOk, WorkerStep;
    }
  }

  /** A finished worker's result is done when it enters the result queue. */
  lemma ResultPushed(s: State, w: nat)
    requires WellShaped(s) && w < WORKERS && WorkerOk(s.current, s.jobs, s.workers[w])
    requires AllDone(s.current, WorkerStep(s, w).jobs, s.results)
    ensures AllDone(s.current, WorkerStep(s, w).jobs, WorkerStep(s, w).results)
  {
    hide Done;
  }

  lemma {:induction false} SameCells(jobs: seq<Job>, jobs': seq<Job>, q: seq<nat>)
    requires forall k :: 0 <= k < |q| ==> Cell(jobs', q[k]) == Cell(jobs, q[k])
    ensures Cells(jobs', q) == Cells(jobs, q)
  {
    hide Cell;
    if q != [] {
      assert forall k :: 0 <= k < |q| - 1 ==> q[1..][k] == q[k + 1];
      SameCells(jobs, jobs', q[1..]);
    }
  }

  lemma {:induction false} CellsPushed(jobs: seq<Job>, q: seq<nat>, f: nat)
    ensures Cells(jobs, q + [f]) == Cells(jobs, q) + Cells(jobs, [f])
  {
    if q == [] {
      assert q + [f] == [f];
    } else {
      assert (q + [f])[1..] == q[1..] + [f];
      CellsPushed(jobs, q[1..], f);
    }
  }

  lemma CellsTaken(jobs: seq<Job>, q: seq<nat>)
    requires q != []
    ensures Cells(jobs, q) == Cells(jobs, [q[0]]) + Cells(jobs, q[1..])
  {
    assert [q[0]][1..] == [];
  }

  /** If no cell of a slot changes, the cells in flight stay the same. */
  lemma SameWorkingCells(s: State, jobs': seq<Job>)
    requires |s.workers| == WORKERS
    requires forall g: nat :: Cell(jobs', g) == Cell(s.jobs, g)
    ensures WorkingCells(s.(jobs := jobs')) == WorkingCells(s)
  {
    hide Cells, Cell;
    SameCells(s.jobs, jobs', s.jobQueue);
    SameCells(s.jobs, jobs', s.results);
    SameCells(s.jobs, jobs', OutputBusy(s));
    SameCells(s.jobs, jobs', WorkerHand(s.workers[0]));
    SameCells(s.jobs, jobs', WorkerHand(s.workers[1]));
    SameCells(s.jobs, jobs', WorkerHand(s.workers[2]));
    SameCells(s.jobs, jobs', WorkerHand(s.workers[3]));
  }

  /** A worker's step moves a cell between the queues and its hand, or none. */
  lemma WorkerMovesCells(s: State, w: nat)
    requires WellShaped(s) && w < WORKERS
    ensures var s' := WorkerStep(s, w);
            WorkingCells(s.(workers := s'.workers, jobQueue := s'.jobQueue, results := s'.results)) == WorkingCells(s)
  {
    hide CellsInHands, Cell, At, Set, Product, Cells;
    var s' := WorkerStep(s, w);
    var t := s.(workers := s'.workers, jobQueue := s'.jobQueue, results := s'.results);
    assert OutputBusy(t) == OutputBusy(s);
    CellsChange(s.jobs, s.workers, w, s'.workers[w]);
    assert t.workers == s.workers[w := s'.workers[w]];
    match s.workers[w]
    case Idle =>
      if s.jobQueue != [] {
        CellsTaken(s.jobs, s.jobQueue);
      }
    case Finished(f) => CellsPushed(s.jobs, s.results, f);
    case _ =>
  }

  lemma NoCells(jobs: seq<Job>)
    ensures Cells(jobs, []) == multiset{}
  {
  }

  lemma WorkerKeepsCells(s: State, w: nat)
    requires WellShaped(s) && w < WORKERS
    ensures forall g: nat :: Cell(WorkerStep(s, w).jobs, g) == Cell(s.jobs, g)
    ensures EmitOk(s) ==> EmitOk(WorkerStep(s, w))
  {
    WorkerTouches(s, w);
    var s' := WorkerStep(s, w);
    assert s'.emitted == s.emitted && s'.output == s.output && s'.current == s.current;
    hide WorkerStep, ValuesOk;
  }

  lemma WorkerKeepsCount(s: State, w: nat)
    requires WellShaped(s) && w < WORKERS && EmitOk(s) && CountOk(s)
    requires WellShaped(WorkerStep(s, w)) && EmitOk(WorkerStep(s, w))
    ensures CountOk(WorkerStep(s, w))
  {
    hide Cells, CellsInHands, Cell;
    var s' := WorkerStep(s, w);
    WorkerKeepsCells(s, w);
    WorkerMovesCells(s, w);
    var t := s.(workers := s'.workers, jobQueue := s'.jobQueue, results := s'.results);
    SameWorkingCells(t, s'.jobs);
    SentFrame(s, s');
    assert s'.output == s.output && s'.emitted == s.emitted;
    hide Sent, WorkerStep;
    assert WorkingCells(s') == WorkingCells(t.(jobs := s'.jobs));
  }

  lemma WorkerKeepsInput(s: State, w: nat)
    requires WellShaped(s) && w < WORKERS && s.current.Valid() && InputOk(s)
    ensures WellShaped(WorkerStep(s, w)) && InputOk(WorkerStep(s, w))
  {
    WorkerTouches(s, w);
    hide Pending;
  }

  lemma WorkerKeepsWorking(s: State, w: nat)
    requires WellShaped(s) && w < WORKERS && WorkingOk(s)
    ensures WorkingOk(WorkerStep(s, w))
  {
    hide Working;
    var s' := WorkerStep(s, w);
    WorkerTouches(s, w);
    forall f: nat | Working(s', f) > 0 ensures JobFor(s'.current, JobAt(s'.jobs, f)) {
      WorkerMovesSlots(s, w, f);
    }
  }

  /** A worker's step leaves the list, the request protocol and the archive alone. */
  lemma WorkerFrame(s: State, chain: seq<nat>, w: nat)
    requires WellShaped(s) && w < WORKERS
    ensures var s' := WorkerStep(s, w);
            && (ListOk(s, chain) ==> ListOk(s', chain)) && (ProtocolOk(s) ==> ProtocolOk(s'))
            && s'.current == s.current && s'.archive == s.archive
            && s'.manager == s.manager && s'.grants == s.grants && s'.input == s.input
            && s'.output == s.output && s'.puts == s.puts
  {
    hide IsChain;
  }

  lemma WorkerKeepsInv(s: State, chain: seq<nat>, w: nat)
    requires Inv(s, chain) && w < WORKERS
    ensures Inv(WorkerStep(s, w), chain)
  {
    hide ListOk, OwnOk, ProtocolOk, WorkingOk, ResultsOk, InputOk, EmitOk, CountOk, Complete, Loaded;
    var s' := WorkerStep(s, w);
    if !s.workers[w].Idle? {
      WorkingMeansLoaded(s, w);
    }
    WorkerFrame(s, chain, w);
    WorkerKeepsInput(s, w);
    WorkerKeepsWorking(s, w);
    WorkerKeepsResults(s, chain, w);
    WorkerKeepsCells(s, w);
    WorkerKeepsCount(s, w);
    hide WorkerStep;
    forall f: nat ensures Held(s', chain, f) == Held(s, chain, f) {
      WorkerMovesSlots(s, w, f);
      RestingFrame(s, s', chain, f);
    }
    OwnKept(s, chain, s', chain);
  }

  lemma RestingFrame(s: State, s': State, chain: seq<nat>, f: nat)
    requires s'.manager == s.manager && s'.grants == s.grants && s'.input == s.input
    requires s'.output == s.output && s'.puts == s.puts
    ensures Resting(s', chain, f) == Resting(s, chain, f)
  {
    hide N;
  }

  // ----- The input module -----

  lemma SentJobMovesSlots(s: State, chain: seq<nat>, f: nat)
    requires WellShaped(s) && s.input.SendingJob?
    ensures Held(InputStep(s), chain, f) == Held(s, chain, f)
  {
    hide N, InHands, At, Set;
    PushN(s.jobQueue, s.input.f, f);
    var s' := InputStep(s);
    assert OutputBusy(s') == OutputBusy(s) && InputHand(s') == [];
  }

  /** Only the grant pipe and the input module's hand can have changed, and their sum has not. */
  lemma HeldByInputSide(s: State, s': State, chain: seq<nat>, f: nat)
    requires WellShaped(s) && WellShaped(s')
    requires s'.workers == s.workers && s'.jobQueue == s.jobQueue && s'.results == s.results && s'.output == s.output
    requires s'.manager == s.manager && s'.puts == s.puts
    requires N(GrantHand(s'), f) + N(InputHand(s'), f) == N(GrantHand(s), f) + N(InputHand(s), f)
    ensures Held(s', chain, f) == Held(s, chain, f)
  {
    WorkingFrame(s, s', f);
    hide N, Working, GrantHand, InputHand, WellShaped;
  }

  lemma GrantChangesHands(s: State, f: nat)
    requires !s.input.SendingJob? && (s.input.Requested? ==> |s.grants| <= 1)
    ensures var s' := InputStep(s);
            N(GrantHand(s'), f) + N(InputHand(s'), f) == N(GrantHand(s), f) + N(InputHand(s), f)
  {
    hide N, At, Set;
    PushN([], 0, f);
  }

  lemma InputMovesSlots(s: State, chain: seq<nat>, f: nat)
    requires WellShaped(s) && ProtocolOk(s)
    ensures Held(InputStep(s), chain, f) == Held(s, chain, f)
  {
    if s.input.SendingJob? {
      SentJobMovesSlots(s, chain, f);
    } else {
      assert s.input.Requested? ==> |s.grants| <= 1;
      InputTouches(s);
      assert InputStep(s).puts == s.puts;
      GrantChangesHands(s, f);
      hide Held, InputStep, ProtocolOk, GrantHand, InputHand;
      HeldByInputSide(s, InputStep(s), chain, f);
    }
  }

  lemma InputKeepsProtocol(s: State)
    requires ProtocolOk(s)
    ensures ProtocolOk(InputStep(s))
  {
    hide Count, At, Set;
    AddCommand(s.requests, GetSlot, GetSlot);
    AddCommand(s.requests, GetSlot, PutSlot);
  }

  /** The slot in the input module's hand is not at work. */
  lemma HeldByInput(s: State, chain: seq<nat>)
    requires WellShaped(s) && OwnOk(s, chain) && (s.input.Filling? || s.input.SendingJob?)
    ensures s.input.f < FREE_LIST_SIZE && Working(s, s.input.f) == 0
  {
    hide N, Working;
    var f := s.input.f;
    assert Resting(s, chain, f) + Working(s, f) == if f < FREE_LIST_SIZE then 1 else 0;
    PushN([], f, f);
  }

  lemma NotWorking(s: State, f: nat)
    requires |s.workers| == WORKERS && Working(s, f) == 0
    ensures N(s.jobQueue, f) == 0 && N(s.results, f) == 0 && N(OutputBusy(s), f) == 0
    ensures forall w :: 0 <= w < WORKERS ==> N(WorkerHand(s.workers[w]), f) == 0
  {
    hide N;
  }

  /** Filling in a job changes that job only. */
  ghost predicate OnlyJob(jobs: seq<Job>, jobs': seq<Job>, f: nat) {
    |jobs'| == |jobs| && forall g: nat :: g != f ==> JobAt(jobs', g) == JobAt(jobs, g)
  }

  lemma InputTouches(s: State)
    requires WellShaped(s)
    ensures var s' := InputStep(s);
            && WellShaped(s') && (if s.input.Filling? then OnlyJob(s.jobs, s'.jobs, s.input.f) else s'.jobs == s.jobs)
            && s'.workers == s.workers && s'.results == s.results && s'.output == s.output
            && s'.current == s.current && s'.emitted == s.emitted && s'.archive == s.archive
            && s'.manager == s.manager && s'.next == s.next && s'.head == s.head
            && s'.jobQueue == if s.input.SendingJob? then s.jobQueue + [s.input.f] else s.jobQueue
  {
  }

  lemma DoneUntouched(p: Problem, jobs: seq<Job>, jobs': seq<Job>, q: seq<nat>, f: nat)
    requires AllDone(p, jobs, q) && OnlyJob(jobs, jobs', f) && N(q, f) == 0
    ensures AllDone(p, jobs', q)
  {
    hide Done;
    forall k | 0 <= k < |q| ensures Done(p, JobAt(jobs', q[k])) {
      assert q[k] != f;
    }
  }

  lemma InputKeepsResults(s: State, chain: seq<nat>)
    requires WellShaped(s) && OwnOk(s, chain) && ResultsOk(s)
    ensures ResultsOk(InputStep(s))
  {
    hide OwnOk, Working, AllDone, InputStep;
    var s', p := InputStep(s), s.current;
    InputTouches(s);
    if s.input.Filling? {
      var f := s.input.f;
      HeldByInput(s, chain);
      NotWorking(s, f);
      DoneUntouched(p, s.jobs, s'.jobs, s.results, f);
      DoneUntouched(p, s.jobs, s'.jobs, OutputBusy(s), f);
      forall w | 0 <= w < WORKERS ensures WorkerOk(p, s'.jobs, s'.workers[w]) {
        assert WorkerOk(p, s.jobs, s.workers[w]) && N(WorkerHand(s.workers[w]), f) == 0;
        hide Dot;
      }
    }
  }

  lemma InputKeepsWorking(s: State, chain: seq<nat>)
    requires WellShaped(s) && s.current.Valid() && OwnOk(s, chain) && WorkingOk(s) && InputOk(s)
    ensures WorkingOk(InputStep(s))
  {
    hide OwnOk, InputStep, InHands, N, Loaded, JobAt, Pending;
    var s' := InputStep(s);
    InputTouches(s);
    if s.input.Filling? {
      HeldByInput(s, chain);
    }
    forall g: nat | Working(s', g) > 0 ensures JobFor(s'.current, JobAt(s'.jobs, g)) {
      if s.input.SendingJob? {
        PushN(s.jobQueue, s.input.f, g);
      }
      assert OutputBusy(s') == OutputBusy(s);
      assert Working(s, g) > 0 || (s.input.SendingJob? && g == s.input.f);
      hide Working;
    }
  }

  lemma InputKeepsEmitted(s: State, chain: seq<nat>)
    requires WellShaped(s) && OwnOk(s, chain) && EmitOk(s)
    ensures EmitOk(InputStep(s))
  {
    hide OwnOk, InputStep, Working, ValuesOk;
    InputTouches(s);
    if s.input.Filling? {
      HeldByInput(s, chain);
      NotWorking(s, s.input.f);
      PushN([], s.input.f, s.input.f);
    }
  }

  lemma InputKeepsCells(s: State, chain: seq<nat>)
    requires WellShaped(s) && OwnOk(s, chain)
    ensures WorkingCells(s.(jobs := InputStep(s).jobs)) == WorkingCells(s)
  {
    hide OwnOk, InputStep, Working, Cells;
    InputTouches(s);
    var jobs' := InputStep(s).jobs;
    if s.input.Filling? {
      var f := s.input.f;
      HeldByInput(s, chain);
      NotWorking(s, f);
      UntouchedCells(s.jobs, jobs', s.jobQueue, f);
      UntouchedCells(s.jobs, jobs', s.results, f);
      UntouchedCells(s.jobs, jobs', OutputBusy(s), f);
      UntouchedCells(s.jobs, jobs', WorkerHand(s.workers[0]), f);
      UntouchedCells(s.jobs, jobs', WorkerHand(s.workers[1]), f);
      UntouchedCells(s.jobs, jobs', WorkerHand(s.workers[2]), f);
      UntouchedCells(s.jobs, jobs', WorkerHand(s.workers[3]), f);
      hide OnlyJob, N;
    }
  }

  lemma UntouchedCells(jobs: seq<Job>, jobs': seq<Job>, q: seq<nat>, f: nat)
    requires OnlyJob(jobs, jobs', f) && N(q, f) == 0
    ensures Cells(jobs', q) == Cells(jobs, q)
  {
    forall k | 0 <= k < |q| ensures Cell(jobs', q[k]) == Cell(jobs, q[k]) {
      assert q[k] != f;
    }
    SameCells(jobs, jobs', q);
  }

  lemma JobSent(s: State)
    requires WellShaped(s) && s.current.Valid() && InputOk(s) && s.input.SendingJob?
    ensures Sent(InputStep(s)) == Sent(s) + Cells(s.jobs, [s.input.f])
  {
    hide Loaded, At, Set;
    var d, i, j := s.input.d, s.input.i, s.input.j;
    assert s.dimensions == [] by { assert Loaded(s); LoadedMeansTaken(s); }
    assert Cells(s.jobs, [s.input.f]) == multiset{(i, j)};
    assert FirstCells(d, i, j + 1) == FirstCells(d, i, j) + multiset{(i, j)};
    assert FirstCells(d, i + 1, 0) == FirstCells(d, i, d);
  }

  lemma LoadedMeansTaken(s: State)
    requires WellShaped(s) && s.current.Valid() && Loaded(s)
    ensures s.dimensions == []
  {
  }

  /** Sending the job of cell (i, j) adds that cell to the ones sent; other steps of the module add none. */
  lemma InputSends(s: State)
    requires WellShaped(s) && s.current.Valid() && InputOk(s)
    ensures Sent(InputStep(s)) == Sent(s) + if s.input.SendingJob? then Cells(s.jobs, [s.input.f]) else multiset{}
  {
    if s.input.SendingJob? {
      JobSent(s);
    } else {
      hide Loaded, At, Set, Cells;
      assert FirstCells(0, 0, 0) == multiset{};
      assert Sent(InputStep(s)) == Sent(s);
    }
  }

  lemma InputKeepsCount(s: State, chain: seq<nat>)
    requires WellShaped(s) && s.current.Valid() && OwnOk(s, chain) && InputOk(s) && EmitOk(s) && CountOk(s)
    requires WellShaped(InputStep(s)) && EmitOk(InputStep(s))
    ensures CountOk(InputStep(s))
  {
    hide OwnOk, InputOk, Sent, Cells, CellsInHands, EmittedCells, InputStep;
    var s' := InputStep(s);
    InputTouches(s);
    InputKeepsCells(s, chain);
    InputSends(s);
    assert OutputBusy(s') == OutputBusy(s);
    if s.input.SendingJob? {
      CellsPushed(s.jobs, s.jobQueue, s.input.f);
    }
  }

  /** Reading one matrix entry. */
  lemma EntryLoaded(m: seq<nat>, k: nat, source: seq<nat>, v: nat)
    requires |m| == MATRIX_SIZE && k < |source| <= MATRIX_SIZE && m[..k] == source[..k] && v == source[k]
    ensures Set(m, k, v)[..k + 1] == source[..k + 1]
  {
    var r := Set(m, k, v);
    assert r[..k + 1] == r[..k] + [v] && r[..k] == m[..k];
    assert source[..k + 1] == source[..k] + [source[k]];
  }

  lemma LoadAKeepsInput(s: State)
    requires WellShaped(s) && s.current.Valid() && InputOk(s) && s.input.LoadA?
    ensures WellShaped(InputStep(s)) && InputOk(InputStep(s))
  {
    var p, d, k := s.current, s.input.d, s.input.k;
    if s.dimensions == [] {
      if k < d * d {
        assert s.data[0] == p.a[k];
        assert s.data[1..] == p.a[k + 1..] + p.b;
        EntryLoaded(s.aMatrix, k, p.a, s.data[0]);
      } else {
        assert p.a[k..] + p.b == p.b[0..] && p.a[..k] == p.a;
      }
    } else {
      assert Pending(InputStep(s));
    }
  }

  lemma LoadBKeepsInput(s: State)
    requires WellShaped(s) && s.current.Valid() && InputOk(s) && s.input.LoadB?
    ensures WellShaped(InputStep(s)) && InputOk(InputStep(s))
  {
    var p, d, k := s.current, s.input.d, s.input.k;
    if s.dimensions == [] {
      if k < d * d {
        assert s.data[0] == p.b[k];
        assert s.data[1..] == p.b[k + 1..];
        EntryLoaded(s.bMatrix, k, p.b, s.data[0]);
      } else {
        assert p.b[k..] == [] && p.b[..k] == p.b;
      }
    } else {
      assert Pending(InputStep(s));
    }
  }

  lemma JobLoopKeepsInput(s: State)
    requires WellShaped(s) && s.current.Valid() && InputOk(s)
    requires !s.input.AwaitDimension? && !s.input.LoadA? && !s.input.LoadB?
    requires s.input.Filling? ==> s.input.f < FREE_LIST_SIZE
    ensures WellShaped(InputStep(s)) && InputOk(InputStep(s))
  {
  }

  lemma AwaitKeepsInput(s: State)
    requires WellShaped(s) && s.current.Valid() && InputOk(s) && s.input.AwaitDimension?
    ensures WellShaped(InputStep(s)) && InputOk(InputStep(s))
  {
    if s.dimensions != [] {
      assert s.current.a[0..] == s.current.a;
      assert forall k :: 0 <= k < |s.dimensions| - 1 ==> s.dimensions[1..][k] == s.dimensions[k + 1];
    }
  }

  lemma InputKeepsInput(s: State, chain: seq<nat>)
    requires WellShaped(s) && s.current.Valid() && OwnOk(s, chain) && InputOk(s)
    ensures WellShaped(InputStep(s)) && InputOk(InputStep(s))
  {
    if s.input.Filling? {
      HeldByInput(s, chain);
    }
    hide InputOk, OwnOk, InputStep;
    match s.input
    case AwaitDimension => AwaitKeepsInput(s);
    case LoadA(_, _) => LoadAKeepsInput(s);
    case LoadB(_, _) => LoadBKeepsInput(s);
    case _ => JobLoopKeepsInput(s);
  }

  lemma InputKeepsInv(s: State, chain: seq<nat>)
    requires Inv(s, chain)
    ensures Inv(InputStep(s), chain)
  {
    hide OwnOk, ProtocolOk, WorkingOk, ResultsOk, InputOk, EmitOk, CountOk, Complete, InputStep, IsChain;
    var s' := InputStep(s);
    InputTouches(s);
    InputKeepsProtocol(s);
    InputKeepsWorking(s, chain);
    InputKeepsResults(s, chain);
    InputKeepsInput(s, chain);
    InputKeepsEmitted(s, chain);
    InputKeepsCount(s, chain);
    forall f: nat ensures Held(s', chain, f) == Held(s, chain, f) {
      InputMovesSlots(s, chain, f);
    }
    OwnKept(s, chain, s', chain);
  }

  // ----- The environment -----

  lemma {:induction false} CountFirstCells(d: nat, i: nat, j: nat)
    ensures |FirstCells(d, i, j)| == i * d + j
    decreases i, j
  {
    if j > 0 {
      CountFirstCells(d, i, j - 1);
    } else if i > 0 {
      CountFirstCells(d, i - 1, d);
      assert (i - 1) * d + d == i * d;
    }
  }

  lemma {:induction false} CountEmitted(e: Emitted, n: nat)
    requires n <= |e.rows| && n <= |e.cols|
    ensures |EmittedCells(e, n)| == n
  {
    if n > 0 {
      CountEmitted(e, n - 1);
    }
  }

  /** The input module is between problems. */
  ghost predicate BetweenProblems(s: State) {
    || s.input == AwaitDimension
    || (s.current.d == 0 && (s.input == LoadA(0, 0) || s.input == LoadB(0, 0)))
  }

  /** When d*d results are out, every job of the problem has been sent and nothing is in progress. */
  lemma AllOutMeansAllSent(s: State)
    requires WellShaped(s) && s.current.Valid() && InputOk(s) && EmitOk(s) && CountOk(s)
    requires |s.emitted.data| == s.current.d * s.current.d
    ensures BetweenProblems(s) && (s.dimensions != [] ==> s.current.d == 0)
    ensures WorkingCells(s) == multiset{} && Sent(s) == FirstCells(s.current.d, s.current.d, 0)
  {
    hide WorkingCells, EmittedCells, FirstCells, Loaded;
    var d, n := s.current.d, s.current.d * s.current.d;
    CountEmitted(s.emitted, n);
    CountFirstCells(d, d, 0);
    assert |WorkingCells(s)| + n == |Sent(s)|;
    if s.input.Requesting? || s.input.Requested? || s.input.Filling? || s.input.SendingJob? {
      CountFirstCells(d, s.input.i, s.input.j);
      IndexBelow(d, s.input.i, s.input.j);
      assert false;
    } else if s.input.LoadA? || s.input.LoadB? || s.dimensions != [] {
      assert n == 0;
      assert d == 0;
      assert FirstCells(d, d, 0) == multiset{};
    }
  }

  lemma NoCellsNoSlots(jobs: seq<Job>, q: seq<nat>)
    ensures Cells(jobs, q) == multiset{} ==> q == []
  {
    if q != [] {
      assert Cell(jobs, q[0]) in Cells(jobs, q);
    }
  }

  /** With no cell in progress all queues of jobs and all hands are empty. */
  lemma NothingInProgress(s: State)
    requires |s.workers| == WORKERS && WorkingCells(s) == multiset{}
    ensures s.jobQueue == [] && s.results == [] && OutputBusy(s) == []
    ensures forall w :: 0 <= w < WORKERS ==> s.workers[w].Idle?
  {
    hide Cells, OutputBusy;
    EmptyParts(Cells(s.jobs, s.jobQueue), CellsInHands(s.jobs, s.workers), Cells(s.jobs, s.results), Cells(s.jobs, OutputBusy(s)));
    EmptyParts(Cells(s.jobs, WorkerHand(s.workers[0])), Cells(s.jobs, WorkerHand(s.workers[1])),
               Cells(s.jobs, WorkerHand(s.workers[2])), Cells(s.jobs, WorkerHand(s.workers[3])));
    NoCellsNoSlots(s.jobs, s.jobQueue);
    NoCellsNoSlots(s.jobs, s.results);
    NoCellsNoSlots(s.jobs, OutputBusy(s));
    forall w | 0 <= w < WORKERS ensures s.workers[w].Idle? {
      assert w in {0, 1, 2, 3};
      NoCellsNoSlots(s.jobs, WorkerHand(s.workers[w]));
    }
  }

  lemma EmptyParts<T>(a: multiset<T>, b: multiset<T>, c: multiset<T>, d: multiset<T>)
    requires a + b + c + d == multiset{}
    ensures a == multiset{} && b == multiset{} && c == multiset{} && d == multiset{}
  {
    forall x ensures a[x] == 0 && b[x] == 0 && c[x] == 0 && d[x] == 0 {
      assert (a + b + c + d)[x] == 0;
    }
  }

  lemma EnvironmentKeepsInput(s: State, p: Problem)
    requires WellShaped(s) && s.current.Valid() && InputOk(s) && p.Valid()
    requires BetweenProblems(s) && (s.dimensions != [] ==> s.current.d == 0)
    requires |s.emitted.data| == s.current.d * s.current.d
    ensures InputOk(EnvironmentStep(s, p))
  {
    var s' := EnvironmentStep(s, p);
    assert s.data == [];
    assert s'.data == p.a + p.b;
    assert forall k :: 0 <= k < |s'.dimensions| - 1 ==> s'.dimensions[k] == s.dimensions[k];
    assert Pending(s');
  }

  lemma EnvironmentKeepsInv(s: State, chain: seq<nat>, p: Problem)
    requires Inv(s, chain)
    ensures Inv(EnvironmentStep(s, p), chain)
  {
    var s' := EnvironmentStep(s, p);
    if s' != s {
      hide OwnOk, ProtocolOk, WorkingOk, ResultsOk, InputOk, IsChain, WorkingCells, Sent;
      AllOutMeansAllSent(s);
      NothingInProgress(s);
      EnvironmentKeepsInput(s, p);
      EnvironmentKeepsRest(s, chain, p);
      assert Complete(s.current, s.emitted);
      hide Complete;
    }
  }

  ghost predicate NoJobs(s: State)
    requires |s.workers| == WORKERS
  {
    && s.jobQueue == [] && s.results == [] && OutputBusy(s) == []
    && forall w :: 0 <= w < WORKERS ==> s.workers[w].Idle?
  }

  lemma EnvironmentKeepsOwn(s: State, chain: seq<nat>, p: Problem)
    requires WellShaped(s) && OwnOk(s, chain) && ProtocolOk(s)
    ensures OwnOk(EnvironmentStep(s, p), chain) && ProtocolOk(EnvironmentStep(s, p))
  {
    hide OwnOk, Held, ManagerSide;
    var s' := EnvironmentStep(s, p);
    forall f: nat ensures Held(s', chain, f) == Held(s, chain, f) {
      assert ManagerSide(s', chain, f) == ManagerSide(s, chain, f) by { ManagerSideFrame(s, s', chain, f); }
      HeldByManagerSide(s, s', chain, chain, f);
    }
    OwnKept(s, chain, s', chain);
  }

  lemma ManagerSideFrame(s: State, s': State, chain: seq<nat>, f: nat)
    requires s'.manager == s.manager && s'.grants == s.grants && s'.puts == s.puts
    ensures ManagerSide(s', chain, f) == ManagerSide(s, chain, f)
  {
  }

  lemma NoJobsFine(s: State)
    requires |s.workers| == WORKERS && NoJobs(s)
    ensures WorkingOk(s) && ResultsOk(s) && WorkingCells(s) == multiset{}
  {
    forall f: nat ensures Working(s, f) == 0 {
      PushN([], 0, f);
      hide N;
    }
    hide Working;
    NoCells(s.jobs);
    hide Cells;
  }

  lemma EnvironmentKeepsRest(s: State, chain: seq<nat>, p: Problem)
    requires WellShaped(s) && OwnOk(s, chain) && ProtocolOk(s) && p.Valid() && BetweenProblems(s) && NoJobs(s)
    requires |s.emitted.data| == s.current.d * s.current.d
    ensures var s' := EnvironmentStep(s, p);
            OwnOk(s', chain) && ProtocolOk(s') && WorkingOk(s') && ResultsOk(s') && EmitOk(s') && CountOk(s')
  {
    var s' := EnvironmentStep(s, p);
    hide OwnOk, ProtocolOk, WorkingOk, ResultsOk, WorkingCells;
    EnvironmentKeepsOwn(s, chain, p);
    assert NoJobs(s');
    NoJobsFine(s');
  }
}
