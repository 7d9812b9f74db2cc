/** Under a fair schedule the farm finishes every problem: all threads have a turn in every round. The pipes are unbounded;
    pipes that hold eleven entries never fill. */
module FarmFairness {
  import opened Fairness
  import opened Occurrences
  import opened FreeList
  import opened Farm
  import opened FarmProof
  import opened FarmTheorems
  import opened FarmProgress

  // ----- The work that is left -----

  function Mult(n: nat, c: nat): nat { n * c }

  lemma OneLess(n: nat, c: nat)
    ensures n > 0 ==> Mult(n, c) == Mult(n - 1, c) + c
    ensures Mult(n + 1, c) == Mult(n, c) + c
  {
  }

  /** A job in the queue, of dimension d, and what a cell takes with its job. */
  function JobWork(d: nat): nat { d + 16 }
  function CellWork(d: nat): nat { d + 24 }

  /** Two loads of d*d entries, and d*d cells. */
  function ProblemWork(d: nat): nat { 3 + 2 * (d * d) + Mult(d * d, CellWork(d)) }

  function DimensionsWork(q: seq<nat>): nat {
    if q == [] then 0 else ProblemWork(q[0]) + DimensionsWork(q[1..])
  }

  /** From cell (i, j) on, with the given part of its own work left. */
  function CellsWork(d: nat, i: nat, j: nat, own: nat): nat {
    var cells := Left(d * d, i * d + j);
    if cells == 0 then 0 else Mult(cells - 1, CellWork(d)) + own
  }

  /** The request for a slot costs nothing until it is granted. */
  function AskingWork(s: State, d: nat): nat {
    if s.manager.Granting? && s.manager.ret >= 0 then d + 21
    else if s.grants != [] && s.grants[0] >= 0 then d + 20
    else d + 22
  }

  function InputWork(s: State): nat {
    match s.input
    case AwaitDimension => 0
    case LoadA(d, k) => 2 + Left(d * d, k) + d * d + Mult(d * d, CellWork(d))
    case LoadB(d, k) => 1 + Left(d * d, k) + Mult(d * d, CellWork(d))
    case Requesting(d, i, j, _, _) => CellsWork(d, i, j, d + 22)
    case Requested(d, i, j, _, _) => CellsWork(d, i, j, AskingWork(s, d))
    case Filling(d, i, j, _, _, _) => CellsWork(d, i, j, d + 19)
    case SendingJob(d, i, j, _, _, _) => CellsWork(d, i, j, d + 18)
  }

  function InputSide(s: State): nat { InputWork(s) + DimensionsWork(s.dimensions) }

  function WorkerWork(d: nat, w: WorkerState): nat {
    match w
    case Idle => 0
    case GotJob(_) => d + 15
    case Multiplying(_, d', _, _, k, _) => Left(d', k) + 13
    case Finished(_) => 12
  }

  function WorkersWork(d: nat, ws: seq<WorkerState>): nat
    requires |ws| == WORKERS
  {
    WorkerWork(d, ws[0]) + WorkerWork(d, ws[1]) + WorkerWork(d, ws[2]) + WorkerWork(d, ws[3])
  }

  function OutputWork(o: OutputState): nat {
    match o
    case AwaitResult => 0 case GotResult(_) => 10 case SentRow(_) => 9 case SentCol(_) => 8
    case SentData(_) => 7 case SentPut(_) => 2
  }

  function JobSide(s: State): nat
    requires |s.workers| == WORKERS
  {
    Mult(|s.jobQueue|, JobWork(s.current.d)) + WorkersWork(s.current.d, s.workers) + 11 * |s.results| + OutputWork(s.output)
  }

  function ManagerWork(m: ManagerState): nat {
    match m
    case Initialising(i) => if i < FREE_LIST_SIZE then FREE_LIST_SIZE - i + 1 else 1
    case AwaitPut => 2
    case _ => 0
  }

  ghost function PutSide(s: State): nat {
    3 * Count(s.requests, PutSlot) + |s.puts| + ManagerWork(s.manager)
  }

  // ----- Polling -----

  /** A job is in progress, or its slot on the way back has not been passed on. */
  predicate InProgress(s: State)
    requires |s.workers| == WORKERS
  {
    || s.output != AwaitResult || s.results != [] || s.jobQueue != []
    || !s.workers[0].Idle? || !s.workers[1].Idle? || !s.workers[2].Idle? || !s.workers[3].Idle?
  }

  /** Steps until a request is refused or granted. With nothing in progress a request that comes last is granted. */
  function PollRest(s: State): nat {
    match s.input
    case Requesting(_, _, _, _, _) => 2
    case Requested(_, _, _, _, _) =>
      if s.grants != [] then 3 else if s.manager.Granting? then 4
      else if s.requests != [] && s.requests[|s.requests| - 1] == GetSlot then 1 else 5
    case _ => 0
  }

  ghost function Work(s: State): nat
    requires |s.workers| == WORKERS
  {
    InputSide(s) + JobSide(s) + PutSide(s)
  }

  ghost function Rank(s: State): nat {
    if |s.workers| == WORKERS then 6 * Work(s) + if InProgress(s) then 0 else PollRest(s) else 0
  }

  /** Someone whose next step does some of the work, or, with nothing in progress, brings the next request nearer. */
  function Helpful(s: State): Agent {
    if |s.workers| != WORKERS || s.output != AwaitResult || s.results != [] then Output
    else if !s.workers[0].Idle? then Worker(0) else if !s.workers[1].Idle? then Worker(1)
    else if !s.workers[2].Idle? then Worker(2) else if !s.workers[3].Idle? then Worker(3)
    else if s.jobQueue != [] then Worker(0)
    else if ManagerBusy(s) then Manager else Input
  }

  // ----- The workers -----

  lemma WorkerWorks(s: State, w: nat)
    requires |s.workers| == WORKERS && w < WORKERS && !s.workers[w].Idle?
    requires s.workers[w].GotJob? ==> JobAt(s.jobs, s.workers[w].f).dimension == s.current.d
    ensures var t := WorkerStep(s, w);
            WorkerWork(s.current.d, t.workers[w]) + 11 * |t.results| < WorkerWork(s.current.d, s.workers[w]) + 11 * |s.results|
  {
    hide Product, Set, At, JobAt;
  }

  lemma OneWorker(d: nat, ws: seq<WorkerState>, ts: seq<WorkerState>, w: nat)
    requires |ws| == |ts| == WORKERS && w < WORKERS
    requires forall v :: 0 <= v < WORKERS && v != w ==> ts[v] == ws[v]
    ensures WorkersWork(d, ts) + WorkerWork(d, ws[w]) == WorkersWork(d, ws) + WorkerWork(d, ts[w])
  {
    hide WorkerWork;
    assert w in {0, 1, 2, 3};
  }

  lemma WorkerTouches(s: State, w: nat)
    requires |s.workers| == WORKERS && w < WORKERS
    ensures var t := WorkerStep(s, w);
      && |t.workers| == WORKERS && (forall v :: 0 <= v < WORKERS && v != w ==> t.workers[v] == s.workers[v])
      && t.input == s.input && t.dimensions == s.dimensions && t.manager == s.manager && t.grants == s.grants
      && t.requests == s.requests && t.puts == s.puts && t.output == s.output && t.current == s.current && t.emitted == s.emitted
      && (!s.workers[w].Idle? ==> t.jobQueue == s.jobQueue)
  {
    hide Product, Set, At, JobAt;
  }

  lemma WorkerTakes(s: State, w: nat)
    requires |s.workers| == WORKERS && w < WORKERS && s.workers[w].Idle? && s.jobQueue != []
    ensures var t := WorkerStep(s, w);
            |t.jobQueue| == |s.jobQueue| - 1 && t.results == s.results && WorkerWork(s.current.d, t.workers[w]) == s.current.d + 15
  {
  }

  lemma WorkerLess(s: State, chain: seq<nat>, w: nat)
    requires Inv(s, chain) && w < WORKERS && (!s.workers[w].Idle? || s.jobQueue != [])
    ensures |WorkerStep(s, w).workers| == WORKERS && Work(WorkerStep(s, w)) < Work(s)
  {
    hide Working, ResultsOk, InputOk, CountOk, EmitOk, OwnOk, ListOk, ProtocolOk, Complete, WorkerStep, WorkersWork, Mult, N,
         InputWork, DimensionsWork, Count, ManagerWork, OutputWork, WorkerWork;
    var t, d := WorkerStep(s, w), s.current.d;
    WorkerTouches(s, w);
    OneWorker(d, s.workers, t.workers, w);
    if s.workers[w].Idle? {
      WorkerTakes(s, w);
      OneLess(|s.jobQueue|, JobWork(d));
      IdleWork(d, s.workers[w]);
    } else {
      HeldAlone(s, chain, w);
      WorkerWorks(s, w);
    }
    SameInputSide(s, t);
  }

  lemma IdleWork(d: nat, w: WorkerState)
    requires w.Idle?
    ensures WorkerWork(d, w) == 0
  {
  }

  lemma SameInputSide(s: State, t: State)
    requires t.input == s.input && t.dimensions == s.dimensions && t.manager == s.manager && t.grants == s.grants
    ensures InputSide(t) == InputSide(s)
  {
    hide CellsWork, DimensionsWork, Mult;
  }

  // ----- The output module -----

  lemma OutputLess(s: State)
    requires |s.workers| == WORKERS && (s.output != AwaitResult || s.results != [])
    ensures |OutputStep(s).workers| == WORKERS && Work(OutputStep(s)) < Work(s)
  {
    var t := OutputStep(s);
    AddCommand(s.requests, PutSlot, PutSlot);
    assert t.workers == s.workers && t.current == s.current && t.jobQueue == s.jobQueue;
    hide WorkersWork, Mult, InputWork, DimensionsWork, Count, ManagerWork, JobAt;
    SameInputSide(s, t);
  }

  // ----- The manager -----

  /** Serving a request that will be refused, or refusing it. */
  predicate Refusing(s: State) {
    (s.manager == AwaitCommand && s.requests != [] && s.requests[0] == GetSlot && s.head < 0)
    || (s.manager.Granting? && s.manager.ret < 0)
  }

  lemma ManagerPuts(s: State)
    requires !Refusing(s) && ManagerBusy(s)
    ensures PutSide(ManagerStep(s)) <= PutSide(s)
    ensures !s.manager.Granting? && !(s.manager == AwaitCommand && s.requests[0] == GetSlot) ==> PutSide(ManagerStep(s)) < PutSide(s)
  {
    if s.requests != [] {
      TakeCommand(s.requests, PutSlot);
    }
    hide Count, Set, At;
  }

  lemma RefusalKeepsPuts(s: State)
    requires Refusing(s)
    ensures PutSide(ManagerStep(s)) == PutSide(s)
  {
    if s.requests != [] {
      TakeCommand(s.requests, PutSlot);
    }
    hide Count, Set, At;
  }

  /** A request in the input module's name is served or granted: that is some of its work. */
  lemma ManagerGrants(s: State)
    requires ProtocolOk(s) && (s.input.Requested? ==> Left(s.input.d * s.input.d, s.input.i * s.input.d + s.input.j) > 0)
    ensures InputSide(ManagerStep(s)) <= InputSide(s)
    ensures !Refusing(s) && (s.manager.Granting? || (s.manager == AwaitCommand && s.requests != [] && s.requests[0] == GetSlot))
            ==> InputSide(ManagerStep(s)) < InputSide(s)
    ensures Refusing(s) ==> InputSide(ManagerStep(s)) == InputSide(s)
  {
    if s.requests != [] {
      TakeCommand(s.requests, GetSlot);
    }
    hide Count, Set, At, Mult, DimensionsWork, Left;
  }

  lemma ManagerTouches(s: State)
    ensures var t := ManagerStep(s);
      && t.workers == s.workers && t.jobQueue == s.jobQueue && t.results == s.results && t.output == s.output
      && t.current == s.current && t.input == s.input && t.dimensions == s.dimensions && t.emitted == s.emitted
      && (!ManagerBusy(s) ==> t == s)
  {
    hide Set, At;
  }

  lemma CellIsLeft(s: State)
    requires WellShaped(s) && s.current.Valid() && InputOk(s) && (s.input.Requested? || s.input.Requesting? || s.input.Filling? || s.input.SendingJob?)
    ensures s.input.d == s.current.d && s.input.i < s.input.d && s.input.j < s.input.d
    ensures Left(s.input.d * s.input.d, s.input.i * s.input.d + s.input.j) > 0
  {
    assert s.input.i < s.input.d && s.input.j < s.input.d by { hide Loaded; }
    IndexBelow(s.input.d, s.input.i, s.input.j);
    hide Loaded;
  }

  lemma ManagerLess(s: State, chain: seq<nat>)
    requires Inv(s, chain) && ManagerBusy(s)
    ensures |ManagerStep(s).workers| == WORKERS
    ensures if Refusing(s) then Work(ManagerStep(s)) == Work(s) else Work(ManagerStep(s)) < Work(s)
  {
    hide ResultsOk, WorkingOk, InputOk, CountOk, EmitOk, OwnOk, ListOk, ProtocolOk, Complete, ManagerStep, WorkersWork, Mult,
         Count, ManagerWork, OutputWork, InputSide, PutSide, Refusing;
    ManagerTouches(s);
    if s.input.Requested? {
      CellIsLeft(s);
    }
    ManagerGrants(s);
    if Refusing(s) {
      RefusalKeepsPuts(s);
    } else {
      ManagerPuts(s);
    }
  }

  // ----- The input module -----

  lemma InputTouchesLittle(s: State)
    ensures var t := InputStep(s);
      && t.workers == s.workers && t.results == s.results && t.output == s.output && t.current == s.current
      && t.puts == s.puts && t.manager == s.manager && t.emitted == s.emitted
      && (!s.input.SendingJob? ==> t.jobQueue == s.jobQueue)
      && (!s.input.Requesting? ==> t.requests == s.requests)
      && (s.input.Requesting? ==> t.requests == s.requests + [GetSlot])
  {
    hide Set, JobAt;
  }

  lemma DimensionTaken(s: State)
    requires s.input == AwaitDimension && s.dimensions != []
    ensures InputSide(InputStep(s)) < InputSide(s)
  {
    hide Mult;
  }

  lemma EntryLoadedLess(s: State)
    requires s.input.LoadA? || s.input.LoadB?
    requires s.input.k < s.input.d * s.input.d ==> s.data != []
    ensures InputSide(InputStep(s)) < InputSide(s)
  {
    var d := s.input.d;
    if d > 0 {
      OneLess(d * d, CellWork(d));
    }
    hide Mult, Set, DimensionsWork;
  }

  lemma SlotFilled(s: State)
    requires s.input.Filling? || (s.input.Requested? && s.grants != [] && s.grants[0] >= 0)
    requires s.input.Requested? ==> !s.manager.Granting?
    requires Left(s.input.d * s.input.d, s.input.i * s.input.d + s.input.j) > 0
    ensures InputSide(InputStep(s)) < InputSide(s)
  {
    hide Mult, Set, JobAt, DimensionsWork, Left;
  }

  lemma LaterCell(d: nat, i: nat, j: nat)
    requires i < d && j < d
    ensures Left(d * d, i * d + j) > 0 && Left(d * d, i * d + j + 1) == Left(d * d, i * d + j) - 1
    ensures (i + 1) * d == i * d + d
  {
    IndexBelow(d, i, j);
  }

  /** The next cell costs less than this one with its job. */
  lemma NextCellLess(s: State, d: nat, i: nat, j: nat, io: nat, jo: nat)
    requires i < d && j < d && s.input == NextCell(d, i, j + 1, io, jo)
    ensures InputWork(s) + JobWork(d) < CellsWork(d, i, j, d + 18)
  {
    hide Mult, Left;
    LaterCell(d, i, j);
    var cells := Left(d * d, i * d + j);
    if cells > 1 {
      OneLess(cells - 1, CellWork(d));
    }
  }

  lemma JobIsSent(s: State)
    requires |s.workers| == WORKERS && s.input.SendingJob? && s.input.i < s.input.d == s.current.d && s.input.j < s.input.d
    ensures |InputStep(s).workers| == WORKERS && Work(InputStep(s)) < Work(s)
  {
    var t, d := InputStep(s), s.input.d;
    NextCellLess(t, d, s.input.i, s.input.j, s.input.io, s.input.jo + d);
    OneLess(|s.jobQueue|, JobWork(d));
    assert t.workers == s.workers && t.requests == s.requests && t.dimensions == s.dimensions;
    hide Mult, NextCell, CellsWork, DimensionsWork, WorkersWork, Count, InputWork, CellWork;
    assert InputWork(s) == CellsWork(d, s.input.i, s.input.j, d + 18) by { SendingWork(s); }
  }

  lemma SendingWork(s: State)
    requires s.input.SendingJob?
    ensures InputWork(s) == CellsWork(s.input.d, s.input.i, s.input.j, s.input.d + 18)
  {
  }

  /** A request, or a refusal read. */
  predicate Polling(s: State) {
    s.input.Requesting? || (s.input.Requested? && s.grants != [] && s.grants[0] < 0)
  }

  lemma PollingIsFree(s: State)
    requires ProtocolOk(s) && Polling(s)
    ensures InputSide(InputStep(s)) == InputSide(s)
  {
    hide Count, Mult, DimensionsWork, CellsWork;
  }

  lemma PollingKeepsPuts(s: State)
    ensures PutSide(InputStep(s)) == PutSide(s)
  {
    InputTouchesLittle(s);
    AddCommand(s.requests, GetSlot, PutSlot);
    hide InputStep, Count, ManagerWork;
  }

  /** The input module waits for a grant, for a problem, or for its data. */
  predicate InputWaits(s: State) {
    (s.input.Requested? && s.grants == []) || AllSentHere(s)
  }
  predicate AllSentHere(s: State) { s.input == AwaitDimension && s.dimensions == [] }

  lemma WaitingStays(s: State)
    requires InputWaits(s)
    ensures InputStep(s) == s
  {
  }

  lemma NoGrantInHand(s: State)
    requires ProtocolOk(s) && s.input.Requested? && s.grants != []
    ensures !s.manager.Granting?
  {
  }

  lemma InputLess(s: State, chain: seq<nat>)
    requires Inv(s, chain) && !InputWaits(s)
    ensures |InputStep(s).workers| == WORKERS
    ensures if Polling(s) then Work(InputStep(s)) == Work(s) else Work(InputStep(s)) < Work(s)
  {
    hide ResultsOk, WorkingOk, InputOk, CountOk, EmitOk, OwnOk, ListOk, ProtocolOk, Complete, InputStep, WorkersWork, Mult,
         Count, ManagerWork, OutputWork, InputSide, PutSide;
    InputTouchesLittle(s);
    PollingKeepsPuts(s);
    DataIsThere(s);
    if s.input.Requested? || s.input.Requesting? || s.input.Filling? || s.input.SendingJob? {
      CellIsLeft(s);
    }
    if Polling(s) {
      PollingIsFree(s);
    } else {
      match s.input {
        case AwaitDimension => DimensionTaken(s);
        case LoadA(_, _) => EntryLoadedLess(s);
        case LoadB(_, _) => EntryLoadedLess(s);
        case SendingJob(_, _, _, _, _, _) => JobIsSent(s);
        case Filling(_, _, _, _, _, _) => SlotFilled(s);
        case Requested(_, _, _, _, _) =>
          NoGrantInHand(s);
          SlotFilled(s);
      }
    }
  }

  // ----- Polls come to an end -----

  /** A slot that is in no job, hand or pipe is free. */
  lemma RestsInChain(s: State, chain: seq<nat>, f: nat)
    requires |s.workers| == WORKERS && OwnOk(s, chain) && FarmProof.Working(s, f) == 0 && f < FREE_LIST_SIZE
    requires s.puts == [] && s.grants == [] && s.input.Requested? && s.manager == AwaitCommand && s.output == AwaitResult
    ensures N(chain, f) == 1
  {
    assert Resting(s, chain, f) + FarmProof.Working(s, f) == 1;
    PushN([], f, f);
    hide N, FarmProof.Working;
  }

  /** With nothing in progress and no slot on its way back, all slots are free. */
  lemma LastRequestGranted(s: State, chain: seq<nat>)
    requires |s.workers| == WORKERS && OwnOk(s, chain) && ProtocolOk(s) && ListOk(s, chain)
    requires !InProgress(s) && s.manager == AwaitCommand && s.requests == [GetSlot]
    ensures s.head >= 0
  {
    hide OwnOk, ProtocolOk, NoJobs, InProgress, N, FarmProof.Working, IsChain;
    NotInProgress(s);
    OnlyThisRequest(s);
    NoJobsNotWorking(s, 0);
    RestsInChain(s, chain, 0);
    PushN([], 0, 0);
    ChainHead(s.next, s.head, chain);
  }

  lemma NotInProgress(s: State)
    requires |s.workers| == WORKERS && !InProgress(s)
    ensures NoJobs(s) && s.output == AwaitResult
  {
  }

  lemma NoJobsNotWorking(s: State, f: nat)
    requires |s.workers| == WORKERS && NoJobs(s)
    ensures FarmProof.Working(s, f) == 0
  {
    PushN([], 0, f);
    hide N;
  }

  lemma OnlyThisRequest(s: State)
    requires ProtocolOk(s) && s.output == AwaitResult && s.manager == AwaitCommand && s.requests == [GetSlot]
    ensures s.puts == [] && s.grants == [] && s.input.Requested?
  {
  }

  /** There is one request for a slot at a time. */
  lemma OneRequest(s: State)
    requires ProtocolOk(s) && s.requests != [] && s.requests[0] == GetSlot
    ensures s.input.Requested? && s.grants == [] && !s.manager.Granting?
    ensures s.requests[|s.requests| - 1] == GetSlot ==> s.requests == [GetSlot]
  {
    TakeCommand(s.requests, GetSlot);
    TwoRequests(s.requests);
    hide Count;
  }

  lemma TwoRequests(q: seq<Command>)
    ensures |q| > 1 && q[0] == GetSlot && q[|q| - 1] == GetSlot ==> Count(q, GetSlot) >= 2
  {
    if |q| > 1 && q[0] == GetSlot && q[|q| - 1] == GetSlot {
      TakeCommand(q, GetSlot);
      var rest := q[1..];
      assert rest[|rest| - 1] == GetSlot;
      assert GetSlot in multiset(rest);
    }
  }

  lemma GrantingAlone(s: State)
    requires ProtocolOk(s) && s.manager.Granting?
    ensures s.input.Requested? && s.grants == []
  {
  }

  lemma RefusingGetsOn(s: State, chain: seq<nat>)
    requires Inv(s, chain) && !InProgress(s) && Refusing(s)
    ensures PollRest(ManagerStep(s)) < PollRest(s)
  {
    hide OwnOk, WorkingOk, ResultsOk, InputOk, EmitOk, CountOk, ListOk, ProtocolOk, Complete, InProgress;
    if s.manager.Granting? {
      GrantingAlone(s);
    } else {
      OneRequest(s);
      if s.requests == [GetSlot] {
        LastRequestGranted(s, chain);
      }
      hide Inv;
    }
  }

  lemma PollingGetsOn(s: State)
    requires ProtocolOk(s) && Polling(s)
    ensures PollRest(InputStep(s)) < PollRest(s)
  {
    assert s.input.Requesting? ==> s.grants == [] && !s.manager.Granting?;
    hide Count;
  }

  // ----- One step and the rank -----

  lemma PollRestAtMost(s: State)
    ensures PollRest(s) <= 5
  {
  }

  /** Nearer, or as near and the same thread is still to help. */
  ghost predicate Helps(s: State, t: State, a: Agent) {
    Rank(t) <= Rank(s) && (Rank(t) == Rank(s) ==> a != Helpful(s) && Helpful(t) == Helpful(s))
  }

  lemma LessWorkHelps(s: State, t: State, a: Agent)
    requires |s.workers| == |t.workers| == WORKERS && Work(t) < Work(s)
    ensures Helps(s, t, a)
  {
    PollRestAtMost(s);
    PollRestAtMost(t);
    hide Work, InProgress, PollRest, Helpful;
  }

  lemma StandingStillHelps(s: State, a: Agent)
    requires a != Helpful(s)
    ensures Helps(s, s, a)
  {
    hide Rank, Helpful;
  }

  /** A poll while jobs are in progress leaves everything else as it is. */
  lemma PollHelps(s: State, t: State, a: Agent)
    requires |s.workers| == |t.workers| == WORKERS && Work(t) == Work(s) && a in {Manager, Input}
    requires t.workers == s.workers && t.jobQueue == s.jobQueue && t.results == s.results && t.output == s.output
    requires InProgress(s) || PollRest(t) < PollRest(s)
    ensures Helps(s, t, a)
  {
    assert InProgress(t) == InProgress(s);
    if InProgress(s) {
      assert Helpful(t) == Helpful(s) && Helpful(s) !in {Manager, Input};
    }
    hide Work, InProgress, PollRest, Helpful;
  }

  lemma IdleWorkerWaits(s: State, w: nat)
    requires |s.workers| == WORKERS && w < WORKERS && s.workers[w].Idle? && s.jobQueue == []
    ensures WorkerStep(s, w) == s && Helpful(s) != Worker(w)
  {
  }

  lemma WorkerHelps(s: State, chain: seq<nat>, w: nat)
    requires Inv(s, chain) && w < WORKERS
    ensures Helps(s, WorkerStep(s, w), Worker(w))
  {
    assert |s.workers| == WORKERS;
    hide Inv, Helps, WorkerStep, Work, Helpful;
    if s.workers[w].Idle? && s.jobQueue == [] {
      IdleWorkerWaits(s, w);
      StandingStillHelps(s, Worker(w));
    } else {
      WorkerLess(s, chain, w);
      LessWorkHelps(s, WorkerStep(s, w), Worker(w));
    }
  }

  lemma OutputHelps(s: State)
    requires |s.workers| == WORKERS
    ensures Helps(s, OutputStep(s), Output)
  {
    if s.output == AwaitResult && s.results == [] {
      assert OutputStep(s) == s && Helpful(s) != Output;
      hide *;
      StandingStillHelps(s, Output);
    } else {
      hide Helps, OutputStep, Work;
      OutputLess(s);
      LessWorkHelps(s, OutputStep(s), Output);
    }
  }

  lemma ManagerHelps(s: State, chain: seq<nat>)
    requires Inv(s, chain)
    ensures Helps(s, ManagerStep(s), Manager)
  {
    ManagerTouches(s);
    assert |s.workers| == WORKERS;
    assert !ManagerBusy(s) ==> Helpful(s) != Manager;
    assert Refusing(s) ==> ManagerBusy(s);
    hide Inv, Helps, ManagerStep, Work, InProgress, PollRest, Helpful, Refusing, ManagerBusy;
    if !ManagerBusy(s) {
      StandingStillHelps(s, Manager);
    } else {
      ManagerLess(s, chain);
      if !Refusing(s) {
        LessWorkHelps(s, ManagerStep(s), Manager);
      } else {
        if !InProgress(s) {
          RefusingGetsOn(s, chain);
        }
        PollHelps(s, ManagerStep(s), Manager);
      }
    }
  }

  /** With nothing in progress and the manager at rest, the input module waits only when all results are out. */
  lemma InputIsNotStuck(s: State, chain: seq<nat>)
    requires Inv(s, chain) && Helpful(s) == Input && InputWaits(s)
    ensures |s.emitted.data| == s.current.d * s.current.d
  {
    hide OwnOk, WorkingOk, ResultsOk, InputOk, EmitOk, CountOk, ListOk, ProtocolOk, Complete, ManagerBusy;
    assert !ManagerBusy(s) && s.output == AwaitResult;
    ManagerRests(s);
    assert NoJobs(s);
    assert Quiet(s);
    if s.input.Requested? {
      GrantIsThere(s);
    } else {
      assert AllSent(s);
      hide Inv;
      AllEmitted(s, chain);
    }
  }

  lemma InputHelps(s: State, chain: seq<nat>)
    requires Inv(s, chain) && |s.emitted.data| != s.current.d * s.current.d
    ensures Helps(s, InputStep(s), Input)
  {
    InputTouchesLittle(s);
    assert |s.workers| == WORKERS && ProtocolOk(s);
    assert Polling(s) ==> !s.input.SendingJob?;
    hide Inv, Helps, InputStep, Work, InProgress, PollRest, Helpful, Polling, InputWaits, ProtocolOk;
    if InputWaits(s) {
      WaitingStays(s);
      if Helpful(s) == Input {
        InputIsNotStuck(s, chain);
      }
      StandingStillHelps(s, Input);
    } else {
      InputLess(s, chain);
      if !Polling(s) {
        LessWorkHelps(s, InputStep(s), Input);
      } else {
        PollingGetsOn(s);
        PollHelps(s, InputStep(s), Input);
      }
    }
  }

  lemma OthersHelp(s: State, a: Agent)
    requires |s.workers| == WORKERS && |s.emitted.data| != s.current.d * s.current.d
    requires a.Environment? || (a.Worker? && a.w >= WORKERS)
    ensures AgentStep(s, a) == s && Helps(s, s, a)
  {
    assert Helpful(s) != a;
    StandingStillHelps(s, a);
    hide Helps, Helpful;
  }

  lemma AgentHelps(s: State, chain: seq<nat>, a: Agent)
    requires Inv(s, chain) && |s.emitted.data| != s.current.d * s.current.d
    ensures Helps(s, AgentStep(s, a), a)
  {
    assert |s.workers| == WORKERS;
    hide Inv, Helps, ManagerStep, InputStep, WorkerStep, OutputStep, EnvironmentStep;
    if a.Environment? || (a.Worker? && a.w >= WORKERS) {
      OthersHelp(s, a);
    } else {
      match a
      case Manager => ManagerHelps(s, chain);
      case Input => InputHelps(s, chain);
      case Worker(w) => WorkerHelps(s, chain, w);
      case Output => OutputHelps(s);
    }
  }

  // ----- Fair runs -----

  const THREADS: set<Agent> := {Manager, Input, Output, Worker(0), Worker(1), Worker(2), Worker(3)}

  ghost predicate WellRun(s: State) { exists chain: seq<nat> :: Inv(s, chain) }

  /** All results of the current problem are out. */
  predicate Finished(s: State) { |s.emitted.data| == s.current.d * s.current.d }

  lemma StepProgresses(s: State, a: Agent)
    requires WellRun(s) && !Finished(s)
    ensures Progresses(AgentStep, WellRun, Finished, Rank, Helpful, s, a)
  {
    var chain :| Inv(s, chain);
    hide Inv, AgentStep, Rank, Helpful;
    AgentHelps(s, chain, a);
    var after := AgentKeepsInv(s, chain, a);
  }

  lemma HelpfulIsThread(s: State)
    ensures Helpful(s) in THREADS
  {
    hide ManagerBusy;
  }

  lemma FarmProgresses()
    ensures AlwaysProgresses(AgentStep, WellRun, Finished, Rank, Helpful, THREADS)
  {
    hide WellRun, Rank, Helpful, Finished, AgentStep, Progresses;
    forall s: State | WellRun(s) && !Finished(s)
      ensures Helpful(s) in THREADS
      ensures forall a: Agent :: Progresses(AgentStep, WellRun, Finished, Rank, Helpful, s, a)
    {
      HelpfulIsThread(s);
      forall a: Agent ensures Progresses(AgentStep, WellRun, Finished, Rank, Helpful, s, a) {
        StepProgresses(s, a);
      }
    }
  }

  lemma {:induction false} RunIsReached(start: Start, schedule: seq<Agent>, more: seq<Agent>)
    ensures Run(AgentStep, StateAfter(start, schedule), more) == StateAfter(start, schedule + more)
    decreases |more|
  {
    hide AgentStep, StateAfter;
    if more == [] {
      assert schedule + more == schedule;
    } else {
      OneMoreStep(start, schedule, more[0]);
      RunIsReached(start, schedule + [more[0]], more[1..]);
      assert schedule + [more[0]] + more[1..] == schedule + more;
    }
  }

  lemma ThreadsKeepProblem(s: State, a: Agent)
    requires !Finished(s)
    ensures AgentStep(s, a).current == s.current && AgentStep(s, a).archive == s.archive
  {
    hide Set, At, JobAt, Product, NextCell;
  }

  /** The environment does nothing before the results are out. */
  lemma {:induction false} SameUntilFinished(start: Start, schedule: seq<Agent>, n: nat, more: seq<Agent>)
    requires n <= |more| && forall k: nat :: k < n ==> !Finished(StateAfter(start, schedule + more[..k]))
    ensures var t, s := StateAfter(start, schedule + more[..n]), StateAfter(start, schedule);
            t.current == s.current && t.archive == s.archive
    decreases n
  {
    hide AgentStep, StateAfter, Finished;
    if n == 0 {
      assert schedule + more[..0] == schedule;
    } else {
      SameUntilFinished(start, schedule, n - 1, more);
      assert schedule + more[..n] == schedule + more[..n - 1] + [more[n - 1]];
      OneMoreStep(start, schedule + more[..n - 1], more[n - 1]);
      ThreadsKeepProblem(StateAfter(start, schedule + more[..n - 1]), more[n - 1]);
    }
  }

  lemma {:induction false} FirstFinish(start: Start, schedule: seq<Agent>, n: nat, more: seq<Agent>) returns (first: nat)
    requires n <= |more| && Finished(StateAfter(start, schedule + more[..n]))
    ensures first <= n && Finished(StateAfter(start, schedule + more[..first]))
    ensures forall k: nat :: k < first ==> !Finished(StateAfter(start, schedule + more[..k]))
    decreases n
  {
    hide Finished, StateAfter;
    if k: nat :| k < n && Finished(StateAfter(start, schedule + more[..k])) {
      first := FirstFinish(start, schedule, k, more);
    } else {
      first := n;
    }
  }

  /** Whatever has happened so far: if from now on all threads have a turn in each of more rounds than the work that is
      left, at some time all d*d results of the current problem are out, before the environment sends another. */
  lemma FairProblemFinishes(start: Start, schedule: seq<Agent>, more: seq<Agent>, m: nat)
    requires start.Shaped() && Rounds(more, THREADS, m) && m > Rank(StateAfter(start, schedule))
    ensures exists n: nat ::
              && n <= |more| && Finished(StateAfter(start, schedule + more[..n]))
              && StateAfter(start, schedule + more[..n]).current == StateAfter(start, schedule).current
              && StateAfter(start, schedule + more[..n]).archive == StateAfter(start, schedule).archive
  {
    hide *;
    var n := ComesToFinish(start, schedule, more, m);
    var first := FirstFinish(start, schedule, n, more);
    SameUntilFinished(start, schedule, first, more);
  }

  lemma ComesToFinish(start: Start, schedule: seq<Agent>, more: seq<Agent>, m: nat) returns (n: nat)
    requires start.Shaped() && Rounds(more, THREADS, m) && m > Rank(StateAfter(start, schedule))
    ensures n <= |more| && Finished(StateAfter(start, schedule + more[..n]))
  {
    var chain := InvOfRun(start, schedule);
    var s := StateAfter(start, schedule);
    assert WellRun(s);
    FarmProgresses();
    hide WellRun, Rank, Helpful, Finished, AgentStep, Progresses, AlwaysProgresses, Rounds, StateAfter, Run, Inv;
    FairRunComes(AgentStep, WellRun, Finished, Rank, Helpful, THREADS, s, more, m);
    n :| n <= |more| && Finished(Run(AgentStep, s, more[..n]));
    RunIsReached(start, schedule, more[..n]);
  }

  // ----- How full the pipes get -----

  lemma {:induction false} AtMostOneEach(m: multiset<nat>, b: nat)
    requires forall f: nat :: m[f] <= if f < b then 1 else 0
    ensures |m| <= b
  {
    if b == 0 {
      assert m == multiset{};
    } else {
      var rest := m[b - 1 := 0];
      AtMostOneEach(rest, b - 1);
      assert m == rest[b - 1 := m[b - 1]];
    }
  }

  lemma FewSlots(q: seq<nat>)
    requires forall f: nat :: N(q, f) <= if f < FREE_LIST_SIZE then 1 else 0
    ensures |q| <= FREE_LIST_SIZE
  {
    forall f: nat ensures multiset(q)[f] <= if f < FREE_LIST_SIZE then 1 else 0 {
      assert N(q, f) <= if f < FREE_LIST_SIZE then 1 else 0;
    }
    AtMostOneEach(multiset(q), FREE_LIST_SIZE);
  }

  lemma {:induction false} TwoCommands(q: seq<Command>)
    ensures |q| == Count(q, GetSlot) + Count(q, PutSlot)
  {
    if q != [] {
      TwoCommands(q[1..]);
      TakeCommand(q, GetSlot);
      TakeCommand(q, PutSlot);
      hide Count;
    }
  }

  lemma OwnedOnce(s: State, chain: seq<nat>, f: nat)
    requires |s.workers| == WORKERS && OwnOk(s, chain)
    ensures N(s.jobQueue, f) <= if f < FREE_LIST_SIZE then 1 else 0
    ensures N(s.results, f) <= if f < FREE_LIST_SIZE then 1 else 0
    ensures N(s.puts + OutputDone(s), f) <= if f < FREE_LIST_SIZE then 1 else 0
  {
    assert Resting(s, chain, f) + FarmProof.Working(s, f) == if f < FREE_LIST_SIZE then 1 else 0;
    assert N(s.puts + OutputDone(s), f) == N(s.puts, f) + N(OutputDone(s), f);
    hide N, InHands, OutputDone, OutputBusy, ManagerHand, GrantHand, InputHand;
  }

  /** No pipe between the threads ever holds more than eleven entries, so pipes of that depth never hold a thread up. */
  lemma PipesStayShort(start: Start, schedule: seq<Agent>)
    requires start.Shaped()
    ensures var s := StateAfter(start, schedule);
      && |s.jobQueue| <= 10 && |s.results| <= 10 && |s.puts| <= 10 && |s.grants| <= 1 && |s.requests| <= 11
  {
    var chain := InvOfRun(start, schedule);
    var s := StateAfter(start, schedule);
    hide StateAfter, WorkingOk, ResultsOk, InputOk, EmitOk, CountOk, ListOk, Complete, OwnOk, N, Count;
    forall f: nat ensures
        && N(s.jobQueue, f) <= (if f < FREE_LIST_SIZE then 1 else 0) && N(s.results, f) <= (if f < FREE_LIST_SIZE then 1 else 0)
        && N(s.puts + OutputDone(s), f) <= if f < FREE_LIST_SIZE then 1 else 0
    {
      OwnedOnce(s, chain, f);
    }
    FewSlots(s.jobQueue);
    FewSlots(s.results);
    FewSlots(s.puts + OutputDone(s));
    TwoCommands(s.requests);
  }
}
