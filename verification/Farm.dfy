/** The matrix-multiply farm: free-queue manager, input module, four workers and output module, joined by
    pipes and sharing the job slots of the free list. Each step is one pipe access or one pass of a loop. */
module Farm {
  import opened FreeList

  const WORKERS := 4
  const MATRIX_SIZE := 1024

  /** One d-by-d multiplication: the row-major matrices the environment sends. Entries are naturals. */
  datatype Problem = Problem(d: nat, a: seq<nat>, b: seq<nat>) {
    predicate Valid() { d * d <= MATRIX_SIZE && |a| == d * d && |b| == d * d }
  }

  datatype Job = Job(dimension: nat, row: nat, col: nat, a: nat, b: nat, result: nat)

  datatype Command = GetSlot | PutSlot

  datatype ManagerState = Initialising(i: nat) | AwaitCommand | Granting(ret: int) | AwaitPut

  /** i, j are the loop indices, io and jo the offsets ioffset and joffset. */
  datatype InputState =
    | AwaitDimension
    | LoadA(d: nat, k: nat)
    | LoadB(d: nat, k: nat)
    | Requesting(d: nat, i: nat, j: nat, io: nat, jo: nat)
    | Requested(d: nat, i: nat, j: nat, io: nat, jo: nat)
    | Filling(d: nat, i: nat, j: nat, io: nat, jo: nat, f: nat)
    | SendingJob(d: nat, i: nat, j: nat, io: nat, jo: nat, f: nat)

  datatype WorkerState =
    | Idle
    | GotJob(f: nat)
    | Multiplying(f: nat, d: nat, a: nat, b: nat, k: nat, acc: nat)
    | Finished(f: nat)

  datatype OutputState = AwaitResult | GotResult(f: nat) | SentRow(f: nat) | SentCol(f: nat) | SentData(f: nat) | SentPut(f: nat)

  /** What the output pipes have carried since the current problem was sent. */
  datatype Emitted = Emitted(rows: seq<nat>, cols: seq<nat>, data: seq<nat>)

  datatype State = State(
    next: seq<int>, head: int, jobs: seq<Job>,
    aMatrix: seq<nat>, bMatrix: seq<nat>,
    requests: seq<Command>, grants: seq<int>, puts: seq<nat>,
    jobQueue: seq<nat>, results: seq<nat>,
    dimensions: seq<nat>, data: seq<nat>,
    manager: ManagerState, input: InputState, workers: seq<WorkerState>, output: OutputState,
    current: Problem, emitted: Emitted, archive: seq<(Problem, Emitted)>)

  datatype Agent = Manager | Input | Worker(w: nat) | Output | Environment(p: Problem)

  ghost predicate WellShaped(s: State) {
    && |s.next| == |s.jobs| == FREE_LIST_SIZE && |s.workers| == WORKERS
    && |s.aMatrix| == |s.bMatrix| == MATRIX_SIZE
  }

  function InitialState(next: seq<int>, jobs: seq<Job>, aMatrix: seq<nat>, bMatrix: seq<nat>): State {
    State(next, 0, jobs, aMatrix, bMatrix, [], [], [], [], [], [], [],
          Initialising(0), AwaitDimension, [Idle, Idle, Idle, Idle], AwaitResult,
          Problem(0, [], []), Emitted([], [], []), [])
  }

  // Array elements; the guards never matter, since indices stay within bounds.
  function At<T>(q: seq<T>, i: int, default: T): T { if 0 <= i < |q| then q[i] else default }
  function Set<T>(q: seq<T>, i: int, v: T): (r: seq<T>)
    ensures |r| == |q|
  {
    if 0 <= i < |q| then q[i := v] else q
  }
  function JobAt(jobs: seq<Job>, f: nat): Job { At(jobs, f, Job(0, 0, 0, 0, 0, 0)) }

  // ----- The free-queue manager -----

  function ManagerStep(s: State): State {
    match s.manager
    case Initialising(i) =>
      if i < FREE_LIST_SIZE - 1 then s.(next := Set(s.next, i, i + 1), manager := Initialising(i + 1))
      else s.(next := Set(s.next, FREE_LIST_SIZE - 1, -1), head := 0, manager := AwaitCommand)
    case AwaitCommand =>
      if s.requests == [] then s
      else if s.requests[0] == GetSlot then
        s.(requests := s.requests[1..],
           head := if s.head != -1 then At(s.next, s.head, -1) else -1, manager := Granting(s.head))
      else s.(requests := s.requests[1..], manager := AwaitPut)
    case Granting(ret) => s.(grants := s.grants + [ret], manager := AwaitCommand)
    case AwaitPut =>
      if s.puts == [] then s
      else s.(next := Set(s.next, s.puts[0], s.head), head := s.puts[0], puts := s.puts[1..], manager := AwaitCommand)
  }

  // ----- The input module -----

  /** The inner loop's test: the next cell, or the next row, or the next problem. */
  function NextCell(d: nat, i: nat, j: nat, io: nat, jo: nat): InputState {
    if j < d then Requesting(d, i, j, io, jo)
    else if i + 1 < d then Requesting(d, i + 1, 0, io + d, 0)
    else AwaitDimension
  }

  function InputStep(s: State): State {
    match s.input
    case AwaitDimension =>
      if s.dimensions == [] then s
      else s.(input := LoadA(s.dimensions[0], 0), dimensions := s.dimensions[1..])
    case LoadA(d, k) =>
      if k >= d * d then s.(input := LoadB(d, 0))
      else if s.data == [] then s
      else s.(aMatrix := Set(s.aMatrix, k, s.data[0]), data := s.data[1..], input := LoadA(d, k + 1))
    case LoadB(d, k) =>
      if k >= d * d then s.(input := if d == 0 then AwaitDimension else Requesting(d, 0, 0, 0, 0))
      else if s.data == [] then s
      else s.(bMatrix := Set(s.bMatrix, k, s.data[0]), data := s.data[1..], input := LoadB(d, k + 1))
    case Requesting(d, i, j, io, jo) =>
      s.(requests := s.requests + [GetSlot], input := Requested(d, i, j, io, jo))
    case Requested(d, i, j, io, jo) =>
      if s.grants == [] then s
      else
        var f := s.grants[0];
        s.(grants := s.grants[1..],
           input := if f >= 0 then Filling(d, i, j, io, jo, f) else Requesting(d, i, j, io, jo))
    case Filling(d, i, j, io, jo, f) =>
      s.(jobs := Set(s.jobs, f, Job(d, i, j, io, jo, JobAt(s.jobs, f).result)), input := SendingJob(d, i, j, io, jo, f))
    case SendingJob(d, i, j, io, jo, f) =>
      s.(jobQueue := s.jobQueue + [f], input := NextCell(d, i, j + 1, io, jo + d))
  }

  // ----- The workers -----

  function Product(s: State, a: nat, b: nat, k: nat): nat {
    At(s.aMatrix, k + a, 0) * At(s.bMatrix, k + b, 0)
  }

  function WorkerStep(s: State, w: nat): State
    requires w < |s.workers|
  {
    match s.workers[w]
    case Idle =>
      if s.jobQueue == [] then s
      else s.(workers := s.workers[w := GotJob(s.jobQueue[0])], jobQueue := s.jobQueue[1..])
    case GotJob(f) =>
      var job := JobAt(s.jobs, f);
      s.(workers := s.workers[w := Multiplying(f, job.dimension, job.a, job.b, 0, 0)])
    case Multiplying(f, d, a, b, k, acc) =>
      if k < 4 * (d / 4) then
        // Four products at a time.
        var sum := (Product(s, a, b, k) + Product(s, a, b, k + 1)) + (Product(s, a, b, k + 2) + Product(s, a, b, k + 3));
        s.(workers := s.workers[w := Multiplying(f, d, a, b, k + 4, acc + sum)])
      else if k < d then
        s.(workers := s.workers[w := Multiplying(f, d, a, b, k + 1, acc + Product(s, a, b, k))])
      else
        s.(jobs := Set(s.jobs, f, JobAt(s.jobs, f).(result := acc)), workers := s.workers[w := Finished(f)])
    case Finished(f) => s.(results := s.results + [f], workers := s.workers[w := Idle])
  }

  // ----- The output module -----

  function OutputStep(s: State): State {
    match s.output
    case AwaitResult =>
      if s.results == [] then s else s.(output := GotResult(s.results[0]), results := s.results[1..])
    case GotResult(f) =>
      s.(emitted := s.emitted.(rows := s.emitted.rows + [JobAt(s.jobs, f).row]), output := SentRow(f))
    case SentRow(f) =>
      s.(emitted := s.emitted.(cols := s.emitted.cols + [JobAt(s.jobs, f).col]), output := SentCol(f))
    case SentCol(f) =>
      s.(emitted := s.emitted.(data := s.emitted.data + [JobAt(s.jobs, f).result]), output := SentData(f))
    case SentData(f) => s.(requests := s.requests + [PutSlot], output := SentPut(f))
    case SentPut(f) => s.(puts := s.puts + [f], output := AwaitResult)
  }

  /** The environment sends a problem once it can have read all results of the one before. */
  function EnvironmentStep(s: State, p: Problem): State {
    if p.Valid() && |s.emitted.data| == s.current.d * s.current.d then
      s.(dimensions := s.dimensions + [p.d], data := s.data + p.a + p.b,
         archive := s.archive + [(s.current, s.emitted)], current := p, emitted := Emitted([], [], []))
    else s
  }

  function AgentStep(s: State, a: Agent): State {
    match a
    case Manager => ManagerStep(s)
    case Input => InputStep(s)
    case Worker(w) => if w < |s.workers| then WorkerStep(s, w) else s
    case Output => OutputStep(s)
    case Environment(p) => EnvironmentStep(s, p)
  }

  /** The state after a schedule. */
  function Reached(s: State, schedule: seq<Agent>): State {
    if schedule == [] then s else AgentStep(Reached(s, schedule[..|schedule| - 1]), schedule[|schedule| - 1])
  }
}
