/** The farm's threads as imperative code over the shared arrays. Every state it reaches satisfies the
    invariant, so no array access needs a bounds check, and each method is its thread's step. */
module FarmProgram {
  import opened Occurrences
  import opened FreeList
  import opened Farm
  import opened FarmProof
  import opened FarmTheorems

  class Program {
    const next: array<int>
    const jobs: array<Job>
    const aMatrix: array<nat>
    const bMatrix: array<nat>
    var head: int
    var requests: seq<Command>
    var grants: seq<int>
    var puts: seq<nat>
    var jobQueue: seq<nat>
    var results: seq<nat>
    var dimensions: seq<nat>
    var data: seq<nat>
    var manager: ManagerState
    var input: InputState
    var workers: seq<WorkerState>
    var output: OutputState
    var current: Problem
    var emitted: Emitted
    var archive: seq<(Problem, Emitted)>

    ghost predicate Shaped()
      reads this
    {
      next.Length == jobs.Length == FREE_LIST_SIZE && aMatrix.Length == bMatrix.Length == MATRIX_SIZE
      && aMatrix != bMatrix
    }

    ghost function View(): State
      reads this, next, jobs, aMatrix, bMatrix
    {
      State(next[..], head, jobs[..], aMatrix[..], bMatrix[..], requests, grants, puts, jobQueue, results,
            dimensions, data, manager, input, workers, output, current, emitted, archive)
    }

    ghost predicate Valid()
      reads this, next, jobs, aMatrix, bMatrix
    {
      Shaped() && exists chain: seq<nat> :: Inv(View(), chain)
    }

    constructor ()
      ensures Valid() && fresh(next) && fresh(jobs) && fresh(aMatrix) && fresh(bMatrix)
      ensures manager == Initialising(0) && archive == [] && current.d == 0
      ensures next.Length == jobs.Length == FREE_LIST_SIZE && aMatrix.Length == bMatrix.Length == MATRIX_SIZE
      ensures View() == InitialState(next[..], jobs[..], aMatrix[..], bMatrix[..])
    {
      next := new int[FREE_LIST_SIZE];
      jobs := new Job[FREE_LIST_SIZE];
      aMatrix := new nat[MATRIX_SIZE];
      bMatrix := new nat[MATRIX_SIZE];
      head := 0;
      requests, grants, puts, jobQueue, results, dimensions, data := [], [], [], [], [], [], [];
      manager, input, output := Initialising(0), AwaitDimension, AwaitResult;
      workers := [Idle, Idle, Idle, Idle];
      current, emitted, archive := Problem(0, [], []), Emitted([], [], []), [];
      new;
      var start := Start(next[..], jobs[..], aMatrix[..], bMatrix[..]);
      ghost var chain := InitialInv(start);
      assert View() == StateAfter(start, []);
    }

    /** The accesses of each thread's next step are within the arrays. */
    ghost predicate InBounds()
      reads this, next, jobs, aMatrix, bMatrix
    {
      Shaped() && AccessesOk(View())
    }

    /** The loop that links the slots, and the end of the list. */
    method LinkSlot()
      requires InBounds() && manager.Initialising?
      modifies this`head, this`manager, next
      ensures View() == ManagerStep(old(View()))
    {
      hide InputAccessOk, WorkerAccessOk, OutputBusy;
      var i := manager.i;
      if i < FREE_LIST_SIZE - 1 {
        next[i] := i + 1;
        manager := Initialising(i + 1);
      } else {
        next[FREE_LIST_SIZE - 1] := -1;
        head := 0;
        manager := AwaitCommand;
      }
    }

    method ManagerThread()
      requires InBounds()
      modifies this, next
      ensures View() == ManagerStep(old(View()))
    {
      hide InputAccessOk, WorkerAccessOk, OutputBusy;
      match manager {
        case Initialising(i) =>
          hide ManagerStep;
          LinkSlot();
        case AwaitCommand =>
          if requests != [] {
            var command := requests[0];
            requests := requests[1..];
            if command == GetSlot {
              manager := Granting(head);
              if head != -1 {
                head := next[head];
              }
            } else {
              manager := AwaitPut;
            }
          }
        case Granting(ret) =>
          grants := grants + [ret];
          manager := AwaitCommand;
        case AwaitPut =>
          if puts != [] {
            var f := puts[0];
            puts := puts[1..];
            next[f] := head;
            head := f;
            manager := AwaitCommand;
          }
      }
    }

    method InputThread()
      requires InBounds()
      modifies this, jobs, aMatrix, bMatrix
      ensures View() == InputStep(old(View()))
    {
      if input.AwaitDimension? || input.LoadA? || input.LoadB? {
        LoadLoops();
      } else {
        JobLoops();
      }
    }

    method LoadLoops()
      requires InBounds() && (input.AwaitDimension? || input.LoadA? || input.LoadB?)
      modifies this`dimensions, this`data, this`input, aMatrix, bMatrix
      ensures View() == InputStep(old(View()))
    {
      match input {
        case AwaitDimension =>
          if dimensions != [] {
            input, dimensions := LoadA(dimensions[0], 0), dimensions[1..];
          }
        case LoadA(d, k) =>
          if k >= d * d {
            input := LoadB(d, 0);
          } else if data != [] {
            aMatrix[k] := data[0];
            data, input := data[1..], LoadA(d, k + 1);
          }
        case LoadB(d, k) =>
          if k >= d * d {
            input := if d == 0 then AwaitDimension else Requesting(d, 0, 0, 0, 0);
          } else if data != [] {
            bMatrix[k] := data[0];
            data, input := data[1..], LoadB(d, k + 1);
          }
      }
    }

    method JobLoops()
      requires InBounds() && !input.AwaitDimension? && !input.LoadA? && !input.LoadB?
      modifies this`requests, this`grants, this`jobQueue, this`input, jobs
      ensures View() == InputStep(old(View()))
    {
      match input {
        case Requesting(d, i, j, io, jo) =>
          requests, input := requests + [GetSlot], Requested(d, i, j, io, jo);
        case Requested(d, i, j, io, jo) =>
          if grants != [] {
            var f := grants[0];
            grants := grants[1..];
            input := if f >= 0 then Filling(d, i, j, io, jo, f) else Requesting(d, i, j, io, jo);
          }
        case Filling(d, i, j, io, jo, f) =>
          jobs[f] := Job(d, i, j, io, jo, jobs[f].result);
          input := SendingJob(d, i, j, io, jo, f);
        case SendingJob(d, i, j, io, jo, f) =>
          jobQueue, input := jobQueue + [f], NextCell(d, i, j + 1, io, jo + d);
      }
    }

    method WorkerThread(w: nat)
      requires InBounds() && w < WORKERS
      modifies this`workers, this`jobQueue, this`results, jobs
      ensures View() == WorkerStep(old(View()), w)
    {
      match workers[w] {
        case Idle =>
          if jobQueue != [] {
            workers, jobQueue := workers[w := GotJob(jobQueue[0])], jobQueue[1..];
          }
        case GotJob(f) =>
          workers := workers[w := Multiplying(f, jobs[f].dimension, jobs[f].a, jobs[f].b, 0, 0)];
        case Multiplying(_, _, _, _, _, _) =>
          MultiplyPass(w);
        case Finished(f) =>
          results, workers := results + [f], workers[w := Idle];
      }
    }

    /** One pass of the unrolled loop, or of the loop for the rest, or the store of the result. */
    method MultiplyPass(w: nat)
      requires InBounds() && w < WORKERS && workers[w].Multiplying?
      modifies this`workers, jobs
      ensures View() == WorkerStep(old(View()), w)
    {
      var Multiplying(f, d, a, b, k, acc) := workers[w];
      if k < 4 * (d / 4) {
        var p0 := aMatrix[k + a] * bMatrix[k + b];
        var p1 := aMatrix[k + 1 + a] * bMatrix[k + 1 + b];
        var p2 := aMatrix[k + 2 + a] * bMatrix[k + 2 + b];
        var p3 := aMatrix[k + 3 + a] * bMatrix[k + 3 + b];
        assert Product(View(), a, b, k) == p0 && Product(View(), a, b, k + 1) == p1;
        assert Product(View(), a, b, k + 2) == p2 && Product(View(), a, b, k + 3) == p3;
        hide Product, InBounds, At;
        workers := workers[w := Multiplying(f, d, a, b, k + 4, acc + ((p0 + p1) + (p2 + p3)))];
      } else if k < d {
        var p := aMatrix[k + a] * bMatrix[k + b];
        assert Product(View(), a, b, k) == p;
        hide Product, InBounds, At;
        workers := workers[w := Multiplying(f, d, a, b, k + 1, acc + p)];
      } else {
        jobs[f] := jobs[f].(result := acc);
        workers := workers[w := Finished(f)];
      }
    }

    method OutputThread()
      requires InBounds()
      modifies this`results, this`emitted, this`requests, this`puts, this`output
      ensures View() == OutputStep(old(View()))
    {
      match output {
        case AwaitResult =>
          if results != [] {
            output, results := GotResult(results[0]), results[1..];
          }
        case GotResult(f) =>
          emitted, output := emitted.(rows := emitted.rows + [jobs[f].row]), SentRow(f);
        case SentRow(f) =>
          emitted, output := emitted.(cols := emitted.cols + [jobs[f].col]), SentCol(f);
        case SentCol(f) =>
          emitted, output := emitted.(data := emitted.data + [jobs[f].result]), SentData(f);
        case SentData(f) =>
          requests, output := requests + [PutSlot], SentPut(f);
        case SentPut(f) =>
          puts, output := puts + [f], AwaitResult;
      }
    }

    method EnvironmentThread(p: Problem)
      modifies this`dimensions, this`data, this`archive, this`current, this`emitted
      ensures View() == EnvironmentStep(old(View()), p)
    {
      if p.Valid() && |emitted.data| == current.d * current.d {
        dimensions, data := dimensions + [p.d], data + p.a + p.b;
        archive, current, emitted := archive + [(current, emitted)], p, Emitted([], [], []);
      }
    }

    /** The threads run in any order, and the invariant holds all along. */
    method Run(schedule: seq<Agent>)
      requires Valid()
      modifies this, next, jobs, aMatrix, bMatrix
      ensures Valid() && View() == Reached(old(View()), schedule)
    {
      hide Inv, AgentStep, Shaped;
      ghost var s0 := View();
      for n := 0 to |schedule|
        invariant Valid() && View() == Reached(s0, schedule[..n])
      {
        assert schedule[..n + 1][..n] == schedule[..n];
        StepOf(schedule[n]);
      }
      assert schedule[..|schedule|] == schedule;
    }

    method ThreadStep(a: Agent)
      requires InBounds()
      modifies this, next, jobs, aMatrix, bMatrix
      ensures View() == AgentStep(old(View()), a)
    {
      hide InBounds, ManagerStep, InputStep, WorkerStep, OutputStep, EnvironmentStep;
      assert |View().workers| == WORKERS by { WorkersShaped(); }
      match a {
        case Manager => ManagerThread();
        case Input => InputThread();
        case Worker(w) => if w < WORKERS { WorkerThread(w); }
        case Output => OutputThread();
        case Environment(p) => EnvironmentThread(p);
      }
    }

    lemma WorkersShaped()
      requires InBounds()
      ensures |View().workers| == WORKERS
    {
    }

    method StepOf(a: Agent)
      requires Valid()
      modifies this, next, jobs, aMatrix, bMatrix
      ensures Valid() && View() == AgentStep(old(View()), a)
    {
      hide Inv, AgentStep, AccessesOk;
      ghost var chain :| Inv(View(), chain);
      InvInBounds(View(), chain);
      ghost var chain' := AgentKeepsInv(View(), chain, a);
      ThreadStep(a);
      assert Inv(View(), chain');
    }
  }

  // ----- The array accesses of each thread -----

  ghost predicate WorkerAccessOk(w: WorkerState) {
    && (!w.Idle? ==> w.f < FREE_LIST_SIZE)
    && (w.Multiplying? ==>
          && w.a + w.d <= MATRIX_SIZE && w.b + w.d <= MATRIX_SIZE && (w.k < 4 * (w.d / 4) ==> w.k + 3 < w.d))
  }

  ghost predicate InputAccessOk(i: InputState) {
    && (i.LoadA? || i.LoadB? ==> i.k < i.d * i.d ==> i.k < MATRIX_SIZE)
    && (i.Filling? ==> i.f < FREE_LIST_SIZE)
  }

  ghost predicate AccessesOk(s: State) {
    && |s.workers| == WORKERS && (forall w :: 0 <= w < WORKERS ==> WorkerAccessOk(s.workers[w]))
    && (s.manager == AwaitCommand ==> s.head == -1 || 0 <= s.head < FREE_LIST_SIZE)
    && (s.manager.Initialising? ==> s.manager.i < FREE_LIST_SIZE)
    && (s.puts != [] ==> s.puts[0] < FREE_LIST_SIZE)
    && InputAccessOk(s.input)
    && (OutputBusy(s) != [] ==> s.output.f < FREE_LIST_SIZE)
  }

  lemma InvInBounds(s: State, chain: seq<nat>)
    requires Inv(s, chain)
    ensures AccessesOk(s)
  {
    hide Inv, WorkerAccessOk, InputAccessOk, OutputBusy;
    InvShape(s, chain);
    HeadInBounds(s, chain);
    PutInBounds(s, chain);
    InputInBounds(s, chain);
    OutputInBounds(s, chain);
    forall w | 0 <= w < WORKERS ensures WorkerAccessOk(s.workers[w]) {
      WorkerInBounds(s, chain, w);
    }
  }

  lemma HeadInBounds(s: State, chain: seq<nat>)
    requires Inv(s, chain)
    ensures s.manager == AwaitCommand ==> s.head == -1 || 0 <= s.head < FREE_LIST_SIZE
    ensures s.manager.Initialising? ==> s.manager.i < FREE_LIST_SIZE
  {
    hide OwnOk, ProtocolOk, WorkingOk, ResultsOk, InputOk, EmitOk, CountOk, Complete;
  }

  lemma PutInBounds(s: State, chain: seq<nat>)
    requires Inv(s, chain)
    ensures s.puts != [] ==> s.puts[0] < FREE_LIST_SIZE
  {
    hide OwnOk;
    if s.puts != [] {
      ReturnedIsNotFree(s, chain);
    }
  }

  lemma InputInBounds(s: State, chain: seq<nat>)
    requires Inv(s, chain)
    ensures InputAccessOk(s.input)
  {
    hide OwnOk, ProtocolOk, WorkingOk, ResultsOk, EmitOk, CountOk, ListOk, Complete, InCell, JobAt;
    if s.input.Filling? {
      HeldByInput(s, chain);
    } else if s.input.LoadA? || s.input.LoadB? {
      LoadInBounds(s);
    }
  }

  lemma LoadInBounds(s: State)
    requires WellShaped(s) && s.current.Valid() && InputOk(s) && (s.input.LoadA? || s.input.LoadB?)
    ensures s.input.k < s.input.d * s.input.d ==> s.input.k < MATRIX_SIZE
  {
    if s.input.d == 0 {
      assert s.input.d * s.input.d == 0;
    }
  }

  lemma InvShape(s: State, chain: seq<nat>)
    requires Inv(s, chain)
    ensures |s.workers| == WORKERS
  {
  }

  lemma WorkerInBounds(s: State, chain: seq<nat>, w: nat)
    requires Inv(s, chain) && w < WORKERS
    ensures WorkerAccessOk(s.workers[w])
  {
    hide ProtocolOk, EmitOk, CountOk, ListOk, Complete, InputOk, Working, JobAt, OwnOk, N, OutputBusy, AllDone, Dot;
    if !s.workers[w].Idle? {
      HeldAlone(s, chain, w);
      JobInBounds(s.current, s.jobs, s.workers[w]);
    }
  }

  lemma JobInBounds(p: Problem, jobs: seq<Job>, w: WorkerState)
    requires p.Valid() && !w.Idle? && w.f < FREE_LIST_SIZE && JobFor(p, JobAt(jobs, w.f)) && WorkerOk(p, jobs, w)
    ensures WorkerAccessOk(w)
  {
    hide Dot, JobAt;
    if w.Multiplying? {
      var job := JobAt(jobs, w.f);
      RowInBounds(p.d, job.row);
      RowInBounds(p.d, job.col);
    }
  }

  lemma RowInBounds(d: nat, row: nat)
    requires row < d && d * d <= MATRIX_SIZE
    ensures row * d + d <= MATRIX_SIZE
  {
    assert row * d + d == (row + 1) * d <= d * d;
  }

  lemma OutputInBounds(s: State, chain: seq<nat>)
    requires Inv(s, chain)
    ensures OutputBusy(s) != [] ==> s.output.f < FREE_LIST_SIZE
  {
    hide ProtocolOk, WorkingOk, ResultsOk, EmitOk, CountOk, ListOk, Complete, InputOk, N, Resting, InHands;
    if OutputBusy(s) != [] {
      var f := s.output.f;
      assert Resting(s, chain, f) + Working(s, f) == if f < FREE_LIST_SIZE then 1 else 0;
      PushN([], f, f);
    }
  }

  /** Results of a problem: cell (i, j) comes once, with the product of row i of a and row j of b. */
  ghost predicate CellOnce(p: Problem, e: Emitted, i: nat, j: nat) {
    exists k: nat ::
      Entry(p, e, k, i, j) && forall l: nat :: l < |e.data| && l < |e.rows| && l < |e.cols| && l != k ==> (e.rows[l], e.cols[l]) != (i, j)
  }

  /** The threads under any schedule: whatever problems the environment has sent and gone past, their results are the
      products. */
  method RunFarm(schedule: seq<Agent>) returns (archive: seq<(Problem, Emitted)>)
    ensures forall n: nat, i: nat, j: nat :: n < |archive| && i < archive[n].0.d && j < archive[n].0.d ==>
              |archive[n].1.data| == archive[n].0.d * archive[n].0.d && CellOnce(archive[n].0, archive[n].1, i, j)
  {
    var farm := new Program();
    ghost var start := Start(farm.next[..], farm.jobs[..], farm.aMatrix[..], farm.bMatrix[..]);
    farm.Run(schedule);
    archive := farm.archive;
    assert StateAfter(start, schedule).archive == archive;
    forall n: nat, i: nat, j: nat | n < |archive| && i < archive[n].0.d && j < archive[n].0.d
      ensures |archive[n].1.data| == archive[n].0.d * archive[n].0.d && CellOnce(archive[n].0, archive[n].1, i, j)
    {
      hide StateAfter;
      FarmMultiplies(start, schedule, n, i, j);
    }
  }
}
