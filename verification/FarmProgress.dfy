/** The farm never gets stuck: from every reachable state its threads can finish the current problem, and they can
    do so writing only to pipes that are empty, so that pipes of depth 1 are enough. */
module FarmProgress {
  import opened Occurrences
  import opened FreeList
  import opened Farm
  import opened FarmProof
  import opened FarmTheorems

  /** No job is in progress, all slots have been given back, and the manager awaits a command. */
  ghost predicate Quiet(s: State) {
    && |s.workers| == WORKERS && NoJobs(s)
    && s.output == AwaitResult && s.manager == AwaitCommand && s.requests == [] && s.puts == []
  }

  // ----- Working off what is in progress -----

  // What is left to do for each kind of thread, if the input module stands still.
  function WorkerRest(d: nat, w: WorkerState): nat {
    match w
    case Idle => 0
    case GotJob(_) => d + 3
    case Multiplying(_, d', _, _, k, _) => if k < d' then d' - k + 2 else 2
    case Finished(_) => 1
  }
  function WorkersRest(d: nat, ws: seq<WorkerState>): nat {
    if |ws| == WORKERS
    then WorkerRest(d, ws[0]) + WorkerRest(d, ws[1]) + WorkerRest(d, ws[2]) + WorkerRest(d, ws[3]) else 0
  }
  function OutputRest(o: OutputState): nat {
    match o
    case AwaitResult => 0 case GotResult(_) => 5 case SentRow(_) => 4 case SentCol(_) => 3
    case SentData(_) => 2 case SentPut(_) => 1
  }
  function ManagerRest(m: ManagerState): nat {
    match m
    case Initialising(i) => if i < FREE_LIST_SIZE then FREE_LIST_SIZE - i + 1 else 1
    case Granting(_) => 1
    case _ => 0
  }

  /** Lexicographically: jobs not taken, work in hand, results, the output module, commands, the manager. */
  ghost predicate LessRest(t: State, s: State) {
    || |t.jobQueue| < |s.jobQueue|
    || (|t.jobQueue| == |s.jobQueue| && LessWork(t, s))
  }

  ghost predicate LessWork(t: State, s: State) {
    var e, d := WorkersRest(t.current.d, t.workers), WorkersRest(s.current.d, s.workers);
    || e < d
    || (e == d && |t.results| < |s.results|)
    || (e == d && |t.results| == |s.results| && LessService(t, s))
  }

  ghost predicate LessService(t: State, s: State) {
    || OutputRest(t.output) < OutputRest(s.output)
    || (OutputRest(t.output) == OutputRest(s.output)
        && (|t.requests| + |t.puts| < |s.requests| + |s.puts|
            || (|t.requests| + |t.puts| == |s.requests| + |s.puts| && ManagerRest(t.manager) < ManagerRest(s.manager))))
  }

  // ----- Pipes -----

  /** A step that writes no pipe between the threads, or one that was empty. */
  ghost predicate Gentle(s: State, t: State) {
    && (|t.requests| <= 1 || |t.requests| <= |s.requests|) && (|t.grants| <= 1 || |t.grants| <= |s.grants|)
    && (|t.puts| <= 1 || |t.puts| <= |s.puts|) && (|t.jobQueue| <= 1 || |t.jobQueue| <= |s.jobQueue|)
    && (|t.results| <= 1 || |t.results| <= |s.results|)
  }

  /** All steps of the schedule from number lo on are gentle. */
  ghost predicate GentleFrom(start: Start, schedule: seq<Agent>, lo: nat) {
    forall n :: lo <= n < |schedule| ==> Gentle(StateAfter(start, schedule[..n]), StateAfter(start, schedule[..n + 1]))
  }

  lemma OneGentleStep(start: Start, schedule: seq<Agent>, a: Agent)
    requires Gentle(StateAfter(start, schedule), AgentStep(StateAfter(start, schedule), a))
    ensures GentleFrom(start, schedule + [a], |schedule|)
  {
    OneMoreStep(start, schedule, a);
    hide StateAfter, AgentStep, Gentle;
    var longer := schedule + [a];
    assert longer[..|schedule|] == schedule && longer[..|schedule| + 1] == longer;
  }

  lemma GentleOnward(start: Start, schedule: seq<Agent>, one: seq<Agent>, two: seq<Agent>)
    requires GentleFrom(start, schedule + one, |schedule|) && GentleFrom(start, schedule + one + two, |schedule + one|)
    ensures schedule + (one + two) == schedule + one + two
    ensures GentleFrom(start, schedule + (one + two), |schedule|)
  {
    hide StateAfter, Gentle;
    var mid, all := schedule + one, schedule + one + two;
    assert schedule + (one + two) == all;
    forall n | |schedule| <= n < |all| ensures Gentle(StateAfter(start, all[..n]), StateAfter(start, all[..n + 1])) {
      if n < |mid| {
        assert all[..n] == mid[..n] && all[..n + 1] == mid[..n + 1];
      }
    }
  }

  // ----- Who can move -----

  /** What the workers, the output module and the manager leave alone. */
  ghost predicate SameProblem(t: State, s: State) {
    && t.current == s.current && t.archive == s.archive && t.input == s.input && t.dimensions == s.dimensions
  }

  lemma WorkerWorks(s: State, w: nat)
    requires |s.workers| == WORKERS && w < WORKERS && !s.workers[w].Idle?
    requires s.workers[w].GotJob? ==> JobAt(s.jobs, s.workers[w].f).dimension == s.current.d
    ensures LessRest(WorkerStep(s, w), s) && SameProblem(WorkerStep(s, w), s)
    ensures s.results == [] ==> Gentle(s, WorkerStep(s, w))
  {
    var d, t := s.current.d, WorkerStep(s, w);
    hide Product, Set, At, JobAt, LessService;
    assert WorkerRest(d, t.workers[w]) < WorkerRest(d, s.workers[w]);
    OneWorkerRests(d, s.workers, t.workers, w);
    hide WorkerRest, WorkersRest;
  }

  lemma WorkerDrains(s: State, chain: seq<nat>, w: nat)
    requires Inv(s, chain) && w < WORKERS && (!s.workers[w].Idle? || s.jobQueue != [])
    ensures LessRest(WorkerStep(s, w), s) && SameProblem(WorkerStep(s, w), s)
    ensures s.results == [] ==> Gentle(s, WorkerStep(s, w))
  {
    hide Working, ResultsOk, InputOk, CountOk, EmitOk, OwnOk, ListOk, ProtocolOk, Complete;
    if s.workers[w].Idle? {
      hide WorkersRest;
    } else {
      HeldAlone(s, chain, w);
      hide LessRest, WorkerStep, SameProblem, Gentle;
      WorkerWorks(s, w);
    }
  }

  lemma OneWorkerRests(d: nat, ws: seq<WorkerState>, ts: seq<WorkerState>, w: nat)
    requires |ws| == |ts| == WORKERS && w < WORKERS && WorkerRest(d, ts[w]) < WorkerRest(d, ws[w])
    requires forall v :: 0 <= v < WORKERS && v != w ==> ts[v] == ws[v]
    ensures WorkersRest(d, ts) < WorkersRest(d, ws)
  {
    hide WorkerRest;
    assert w in {0, 1, 2, 3};
  }

  lemma OutputDrains(s: State)
    requires s.output != AwaitResult || s.results != []
    requires ProtocolOk(s) && !ManagerBusy(s)
    ensures LessRest(OutputStep(s), s) && SameProblem(OutputStep(s), s) && Gentle(s, OutputStep(s))
  {
    hide WorkersRest;
  }

  /** The manager is not waiting for anything. */
  predicate ManagerBusy(s: State) {
    match s.manager
    case AwaitCommand => s.requests != []
    case AwaitPut => s.puts != []
    case _ => true
  }

  lemma ManagerDrains(s: State)
    requires ProtocolOk(s) && ManagerBusy(s)
    requires s.manager.Initialising? ==> s.manager.i < FREE_LIST_SIZE
    ensures LessRest(ManagerStep(s), s) && SameProblem(ManagerStep(s), s) && Gentle(s, ManagerStep(s))
  {
    hide WorkersRest, Set, At;
  }

  /** Commands and slots on their way back match, so that the manager does not wait for a slot either. */
  lemma ManagerRests(s: State)
    requires ProtocolOk(s) && s.output == AwaitResult && !ManagerBusy(s)
    ensures s.manager == AwaitCommand && s.requests == [] && s.puts == []
  {
  }

  lemma SomeoneDrains(s: State, chain: seq<nat>) returns (a: Agent)
    requires Inv(s, chain) && !Quiet(s)
    ensures LessRest(AgentStep(s, a), s) && SameProblem(AgentStep(s, a), s) && Gentle(s, AgentStep(s, a))
  {
    hide WorkingOk, ResultsOk, InputOk, CountOk, EmitOk, OwnOk, ProtocolOk, Complete,
         LessRest, SameProblem, Gentle, ManagerBusy, WorkerStep, ManagerStep, OutputStep;
    if ManagerBusy(s) {
      a := Manager;
      ManagerDrains(s);
    } else if s.output != AwaitResult || s.results != [] {
      a := Output;
      OutputDrains(s);
    } else if w: nat :| w < WORKERS && !s.workers[w].Idle? {
      a := Worker(w);
      WorkerDrains(s, chain, w);
    } else {
      ManagerRests(s);
      a := Worker(0);
      WorkerDrains(s, chain, 0);
    }
  }

  lemma OneMoreStep(start: Start, schedule: seq<Agent>, a: Agent)
    ensures StateAfter(start, schedule + [a]) == AgentStep(StateAfter(start, schedule), a)
  {
    hide AgentStep, InitialState;
    assert (schedule + [a])[..|schedule|] == schedule;
  }

  lemma {:induction false} Drain(start: Start, schedule: seq<Agent>) returns (more: seq<Agent>)
    requires start.Shaped()
    ensures Quiet(StateAfter(start, schedule + more))
    ensures SameProblem(StateAfter(start, schedule + more), StateAfter(start, schedule))
    ensures GentleFrom(start, schedule + more, |schedule|)
    decreases |StateAfter(start, schedule).jobQueue|,
              WorkersRest(StateAfter(start, schedule).current.d, StateAfter(start, schedule).workers),
              |StateAfter(start, schedule).results|,
              OutputRest(StateAfter(start, schedule).output),
              |StateAfter(start, schedule).requests| + |StateAfter(start, schedule).puts|,
              ManagerRest(StateAfter(start, schedule).manager)
  {
    hide Quiet, AgentStep, StateAfter, Inv, WorkersRest, OutputRest, ManagerRest, Gentle;
    var s := StateAfter(start, schedule);
    if Quiet(s) {
      more := [];
      assert schedule + [] == schedule;
    } else {
      var chain := InvOfRun(start, schedule);
      var a := SomeoneDrains(s, chain);
      OneMoreStep(start, schedule, a);
      OneGentleStep(start, schedule, a);
      hide GentleFrom;
      var rest := Drain(start, schedule + [a]);
      more := [a] + rest;
      GentleOnward(start, schedule, [a], rest);
    }
  }

  // ----- The input module -----

  /** Whether all jobs of the current problem have been sent. */
  ghost predicate AllSent(s: State) { s.input == AwaitDimension && s.dimensions == [] }

  function StageRest(s: State): nat {
    match s.input case AwaitDimension => 0 case LoadA(_, _) => 3 case LoadB(_, _) => 2 case _ => 1
  }
  function Left(total: nat, done: nat): nat { if done < total then total - done else 0 }
  function LoopRest(s: State): nat {
    match s.input
    case AwaitDimension => 0
    case LoadA(d, k) => Left(d * d, k)
    case LoadB(d, k) => Left(d * d, k)
    case Requesting(d, i, j, _, _) => Left(d * d, i * d + j)
    case Requested(d, i, j, _, _) => Left(d * d, i * d + j)
    case Filling(d, i, j, _, _, _) => Left(d * d, i * d + j)
    case SendingJob(d, i, j, _, _, _) => Left(d * d, i * d + j)
  }
  /** A refused request is made again. */
  function CellRest(s: State): nat {
    match s.input
    case Requested(_, _, _, _, _) => if s.grants != [] && s.grants[0] >= 0 then 3 else 5
    case Requesting(_, _, _, _, _) => 4
    case Filling(_, _, _, _, _, _) => 2
    case _ => 1
  }

  ghost predicate LessLeft(t: State, s: State) {
    || |t.dimensions| < |s.dimensions|
    || (|t.dimensions| == |s.dimensions|
        && (StageRest(t) < StageRest(s)
            || (StageRest(t) == StageRest(s)
                && (LoopRest(t) < LoopRest(s) || (LoopRest(t) == LoopRest(s) && CellRest(t) < CellRest(s))))))
  }

  /** When nothing is in progress all slots but the one granted are free. */
  lemma SlotsAreFree(s: State, chain: seq<nat>)
    requires Inv(s, chain) && Quiet(s) && s.input.Requesting?
    ensures s.head >= 0 && s.grants == []
  {
    assert s.grants == [] by { hide OwnOk; }
    assert Resting(s, chain, 0) + Working(s, 0) == 1;
    PushN([], 0, 0);
    assert N(chain, 0) == 1;
    hide N;
    ChainHead(s.next, s.head, chain);
  }

  /** The test of the inner loop moves on to a later cell. */
  lemma NextCellIsLater(d: nat, i: nat, j: nat, io: nat, jo: nat)
    requires i < d && j < d
    ensures match NextCell(d, i, j + 1, io, jo)
            case Requesting(e, i', j', _, _) => e == d && i' * d + j' > i * d + j && i * d + j < d * d
            case AwaitDimension => true
            case _ => false
  {
    IndexBelow(d, i, j);
    assert (i + 1) * d == i * d + d;
  }

  lemma SendingDrains(s: State)
    requires s.input.SendingJob? && s.input.i < s.input.d && s.input.j < s.input.d
    ensures LessLeft(InputStep(s), s)
  {
    NextCellIsLater(s.input.d, s.input.i, s.input.j, s.input.io, s.input.jo + s.input.d);
    hide NextCell;
  }

  lemma LoadingDrains(s: State)
    requires s.input.AwaitDimension? ==> s.dimensions != []
    requires s.input.AwaitDimension? || s.input.LoadA? || s.input.LoadB?
    requires (s.input.LoadA? || s.input.LoadB?) && s.input.k < s.input.d * s.input.d ==> s.data != []
    ensures LessLeft(InputStep(s), s)
  {
    hide Set;
  }

  lemma AskingDrains(s: State)
    requires s.input.Filling? || (s.input.Requested? && s.grants != [])
    ensures LessLeft(InputStep(s), s)
  {
    hide Set, JobAt;
  }

  lemma GrantIsThere(s: State)
    requires ProtocolOk(s) && s.manager == AwaitCommand && s.requests == []
    ensures s.input.Requested? ==> s.grants != []
  {
  }

  /** The rest of the environment's data is there when the input module reads it. */
  lemma DataIsThere(s: State)
    requires WellShaped(s) && s.current.Valid() && InputOk(s)
    ensures (s.input.LoadA? || s.input.LoadB?) && s.input.k < s.input.d * s.input.d ==> s.data != []
    ensures s.input.SendingJob? ==> s.input.i < s.input.d && s.input.j < s.input.d
  {
  }

  /** Every step of the input module but a request, which the manager has to answer first. */
  lemma InputDrains(s: State, chain: seq<nat>)
    requires Inv(s, chain) && Quiet(s) && !AllSent(s) && !s.input.Requesting?
    ensures LessLeft(InputStep(s), s) && !InputStep(s).input.Requested? && Gentle(s, InputStep(s))
    ensures InputStep(s).current == s.current && InputStep(s).archive == s.archive
  {
    hide InputOk, OwnOk, WorkingOk, ResultsOk, EmitOk, CountOk, ListOk, ProtocolOk, Complete, LessLeft;
    assert s.jobQueue == [];
    hide NoJobs;
    GrantIsThere(s);
    DataIsThere(s);
    hide Inv;
    match s.input {
      case SendingJob(_, _, _, _, _, _) => SendingDrains(s);
      case Filling(_, _, _, _, _, _) => AskingDrains(s);
      case Requested(_, _, _, _, _) => AskingDrains(s);
      case _ => LoadingDrains(s);
    }
  }

  /** A request made when all slots are free is granted. */
  lemma RequestGranted(s: State, chain: seq<nat>)
    requires Inv(s, chain) && Quiet(s) && s.input.Requesting?
    ensures var t := ManagerStep(ManagerStep(InputStep(s)));
            Quiet(t) && LessLeft(t, s) && t.current == s.current && t.archive == s.archive
    ensures Gentle(s, InputStep(s)) && Gentle(InputStep(s), ManagerStep(InputStep(s)))
    ensures Gentle(ManagerStep(InputStep(s)), ManagerStep(ManagerStep(InputStep(s))))
  {
    SlotsAreFree(s, chain);
    hide Inv, At, Left;
    var t1 := InputStep(s);
    assert t1.requests == [GetSlot];
    var t2 := ManagerStep(t1);
    assert t2.requests == [] && t2.manager == Granting(s.head);
    var t3 := ManagerStep(t2);
    assert t3.grants == [s.head];
  }

  /** With everything sent and nothing in progress, all results are out. */
  lemma AllEmitted(s: State, chain: seq<nat>)
    requires Inv(s, chain) && Quiet(s) && AllSent(s)
    ensures |s.emitted.data| == s.current.d * s.current.d
  {
    hide OwnOk, WorkingOk, ResultsOk, InputOk, WorkingCells, EmittedCells, FirstCells, ListOk, ProtocolOk, Complete;
    NoJobsFine(s);
    CountEmitted(s.emitted, |s.emitted.data|);
    CountFirstCells(s.current.d, s.current.d, 0);
  }

  lemma {:induction false} SendAll(start: Start, schedule: seq<Agent>) returns (more: seq<Agent>)
    requires start.Shaped() && Quiet(StateAfter(start, schedule))
    ensures var t, s := StateAfter(start, schedule + more), StateAfter(start, schedule);
            Quiet(t) && AllSent(t) && t.current == s.current && t.archive == s.archive
    ensures GentleFrom(start, schedule + more, |schedule|)
    decreases |StateAfter(start, schedule).dimensions|, StageRest(StateAfter(start, schedule)),
              LoopRest(StateAfter(start, schedule)), CellRest(StateAfter(start, schedule))
  {
    hide Quiet, AgentStep, StateAfter, Inv, StageRest, LoopRest, CellRest, AllSent, Gentle;
    var s := StateAfter(start, schedule);
    if AllSent(s) {
      more := [];
      assert schedule + [] == schedule;
    } else {
      hide GentleFrom;
      var some := SendSome(start, schedule);
      var rest := SendAll(start, schedule + some);
      more := some + rest;
      GentleOnward(start, schedule, some, rest);
    }
  }

  lemma SendSome(start: Start, schedule: seq<Agent>) returns (more: seq<Agent>)
    requires start.Shaped() && Quiet(StateAfter(start, schedule)) && !AllSent(StateAfter(start, schedule))
    ensures var t, s := StateAfter(start, schedule + more), StateAfter(start, schedule);
            Quiet(t) && LessLeft(t, s) && t.current == s.current && t.archive == s.archive
    ensures GentleFrom(start, schedule + more, |schedule|)
  {
    var chain := InvOfRun(start, schedule);
    var s := StateAfter(start, schedule);
    OneMoreStep(start, schedule, Input);
    assert AgentStep(s, Input) == InputStep(s);
    if s.input.Requesting? {
      hide Quiet, StateAfter, Inv, LessLeft, AllSent, InputStep, ManagerStep, Gentle, GentleFrom;
      RequestGranted(s, chain);
      more := Grant(start, schedule);
    } else {
      hide Quiet, AgentStep, StateAfter, Inv, AllSent, InputStep, Gentle, GentleFrom;
      InputDrains(s, chain);
      OneGentleStep(start, schedule, Input);
      var rest := Drain(start, schedule + [Input]);
      more := [Input] + rest;
      GentleOnward(start, schedule, [Input], rest);
      LessLeftFrame(StateAfter(start, schedule + more), InputStep(s), s);
    }
  }

  /** The output module, the workers and the manager leave the input module's loops alone. */
  lemma LessLeftFrame(t: State, u: State, s: State)
    requires LessLeft(u, s) && t.input == u.input && t.dimensions == u.dimensions && !u.input.Requested?
    ensures LessLeft(t, s)
  {
    hide Left;
  }

  lemma Grant(start: Start, schedule: seq<Agent>) returns (more: seq<Agent>)
    requires var s := StateAfter(start, schedule);
             var t := InputStep(s);
             Gentle(s, t) && Gentle(t, ManagerStep(t)) && Gentle(ManagerStep(t), ManagerStep(ManagerStep(t)))
    ensures StateAfter(start, schedule + more) == ManagerStep(ManagerStep(InputStep(StateAfter(start, schedule))))
    ensures GentleFrom(start, schedule + more, |schedule|)
  {
    hide StateAfter, InputStep, ManagerStep, Gentle, GentleFrom;
    OneMoreStep(start, schedule, Input);
    OneGentleStep(start, schedule, Input);
    OneMoreStep(start, schedule + [Input], Manager);
    OneGentleStep(start, schedule + [Input], Manager);
    GentleOnward(start, schedule, [Input], [Manager]);
    var two := [Input] + [Manager];
    OneMoreStep(start, schedule + two, Manager);
    OneGentleStep(start, schedule + two, Manager);
    GentleOnward(start, schedule, two, [Manager]);
    more := two + [Manager];
  }

  lemma FinishProblem(start: Start, schedule: seq<Agent>, s: State) returns (more: seq<Agent>, t: State)
    requires start.Shaped() && s == StateAfter(start, schedule)
    ensures t == StateAfter(start, schedule + more) && GentleFrom(start, schedule + more, |schedule|)
    ensures t.current == s.current && t.archive == s.archive && |t.emitted.data| == s.current.d * s.current.d
  {
    hide Quiet, AgentStep, StateAfter, Inv, AllSent, GentleFrom;
    var some := Drain(start, schedule);
    var rest := SendAll(start, schedule + some);
    more := some + rest;
    GentleOnward(start, schedule, some, rest);
    t := StateAfter(start, schedule + more);
    var chain := InvOfRun(start, schedule + more);
    AllEmitted(t, chain);
  }

  /** No deadlock: whatever has happened so far, the farm's own threads can go on to emit all d*d results of
      the current problem, and never need to write to a pipe that is not empty. */
  lemma ProblemCanBeFinished(start: Start, schedule: seq<Agent>)
    requires start.Shaped()
    ensures exists more: seq<Agent> ::
              var t, s := StateAfter(start, schedule + more), StateAfter(start, schedule);
              && t.current == s.current && t.archive == s.archive && |t.emitted.data| == s.current.d * s.current.d
              && GentleFrom(start, schedule + more, |schedule|)
  {
    var s := StateAfter(start, schedule);
    hide *;
    var more, t := FinishProblem(start, schedule, s);
  }

  /** So every problem sent is computed: some continuation archives it, complete. */
  lemma ProblemIsComputed(start: Start, schedule: seq<Agent>, p: Problem)
    requires start.Shaped() && p.d * p.d <= 1024 && |p.a| == |p.b| == p.d * p.d
    ensures exists more: seq<Agent> ::
              var t, s := StateAfter(start, schedule + more), StateAfter(start, schedule);
              |t.archive| == |s.archive| + 1 && t.archive[|s.archive|].0 == s.current && t.current == p
  {
    ProblemCanBeFinished(start, schedule);
    hide StateAfter, Inv, GentleFrom;
    var more :| var t, s := StateAfter(start, schedule + more), StateAfter(start, schedule);
      t.current == s.current && t.archive == s.archive && |t.emitted.data| == s.current.d * s.current.d;
    OneMoreStep(start, schedule + more, Environment(p));
    var all := more + [Environment(p)];
    assert schedule + all == schedule + more + [Environment(p)];
  }
}
