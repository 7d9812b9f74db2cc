/** The correlator: a master, four workers that share the best result under a token in a pipe, and a counter of
    reports. Each step is one pipe access, one access to a shared variable, or a computation on local ones. Values are
    exact reals. */
module Correlator {
  const ORDER: nat := 8
  const WORKERS: nat := 4
  const WORST: real := -1000000.0

  /** The master starts the workers, sends them the data, sets the shared variables, offers the offsets, and waits. */
  datatype Master =
    | Starting(i: nat)
    | Sending(idx: nat, k: nat)
    | ResettingCounter
    | ResettingValue
    | ResettingOffset
    | GivingLock
    | Offering(idx: nat)
    | AwaitDone
    | WritingValue
    | WritingOffset
    | Finished

  datatype Phase =
    | AwaitStart | Receiving | AwaitOffset | Correlating | AwaitLock
    | Comparing | StoringValue | StoringOffset | CountingJob | Reporting | Unlocking

  /** The locals of a worker thread; a and b are as far as they have been received. */
  datatype Worker = Worker(phase: Phase, a: seq<real>, b: seq<real>, offset: nat, value: real)

  datatype Counter = Counting(idx: nat) | Announcing

  /** a and b are what data_in carries. reported is the history of the offsets reported to the counter. */
  datatype State = State(
    a: seq<real>, b: seq<real>,
    start: seq<nat>, data: seq<seq<real>>, lock: nat, offsets: seq<nat>, reports: nat, allDone: nat,
    bestValue: real, bestOffset: nat, jobs: nat,
    master: Master, workers: seq<Worker>, counter: Counter,
    reported: seq<nat>, values: seq<real>, places: seq<nat>)

  datatype Agent = TheMaster | TheWorker(w: nat) | TheCounter

  ghost predicate Shaped(s: State) {
    |s.start| == |s.data| == |s.workers| == WORKERS && |s.a| == |s.b| == ORDER
  }

  const IDLE := Worker(AwaitStart, [], [], 0, 0.0)

  function InitialState(a: seq<real>, b: seq<real>, value: real, offset: nat, jobs: nat): State {
    State(a, b, [0, 0, 0, 0], [[], [], [], []], 0, [], 0, 0, value, offset, jobs,
          Starting(0), [IDLE, IDLE, IDLE, IDLE], Counting(0), [], [], [])
  }

  // ----- The correlation -----

  /** One term of the sum; & MASK is % ORDER. */
  function Term(a: seq<real>, b: seq<real>, offset: nat, i: nat): real {
    if |a| == |b| == ORDER then a[i % ORDER] * b[(i + offset) % ORDER] else 0.0
  }

  function SumOfTerms(a: seq<real>, b: seq<real>, offset: nat, n: nat): real {
    if n == 0 then 0.0 else SumOfTerms(a, b, offset, n - 1) + Term(a, b, offset, n - 1)
  }

  function Correlation(a: seq<real>, b: seq<real>, offset: nat): real {
    SumOfTerms(a, b, offset, ORDER)
  }

  // ----- The master -----

  /** What the master sends to each worker: a[0], b[0], a[1], b[1], ... */
  function Item(a: seq<real>, b: seq<real>, i: nat): real
    requires |a| == |b| == ORDER && i < 2 * ORDER
  {
    if i % 2 == 0 then a[i / 2] else b[i / 2]
  }

  function MasterStep(s: State): State
    requires Shaped(s)
  {
    match s.master
    case Starting(i) =>
      if i < WORKERS then s.(start := s.start[i := s.start[i] + 1], master := Starting(i + 1))
      else s.(master := Sending(0, 0))
    case Sending(idx, k) =>
      if idx >= ORDER then s.(master := ResettingCounter)
      else if k >= 2 * WORKERS then s.(master := Sending(idx + 1, 0))
      else
        var item := if k % 2 == 0 then s.a[idx] else s.b[idx];
        s.(data := s.data[k / 2 := s.data[k / 2] + [item]], master := Sending(idx, k + 1))
    case ResettingCounter => s.(jobs := 0, master := ResettingValue)
    case ResettingValue => s.(bestValue := WORST, master := ResettingOffset)
    case ResettingOffset => s.(bestOffset := 0, master := GivingLock)
    case GivingLock => s.(lock := s.lock + 1, master := Offering(0))
    case Offering(idx) =>
      if idx < ORDER then s.(offsets := s.offsets + [idx], master := Offering(idx + 1))
      else s.(master := AwaitDone)
    case AwaitDone =>
      if s.allDone == 0 then s else s.(allDone := s.allDone - 1, master := WritingValue)
    case WritingValue => s.(values := s.values + [s.bestValue], master := WritingOffset)
    case WritingOffset => s.(places := s.places + [s.bestOffset], master := Finished)
    case Finished => s
  }

  // ----- A worker -----

  function WorkerStep(s: State, w: nat): State
    requires Shaped(s) && w < WORKERS
  {
    var me := s.workers[w];
    match me.phase
    case AwaitStart =>
      if s.start[w] == 0 then s
      else s.(start := s.start[w := s.start[w] - 1], workers := s.workers[w := me.(phase := Receiving, a := [], b := [])])
    case Receiving =>
      if |me.b| >= ORDER then s.(workers := s.workers[w := me.(phase := AwaitOffset)])
      else if s.data[w] == [] then s
      else
        var x := s.data[w][0];
        s.(data := s.data[w := s.data[w][1..]],
           workers := s.workers[w := if |me.a| == |me.b| then me.(a := me.a + [x]) else me.(b := me.b + [x])])
    case AwaitOffset =>
      if s.offsets == [] then s
      else s.(offsets := s.offsets[1..], workers := s.workers[w := me.(phase := Correlating, offset := s.offsets[0])])
    case Correlating =>
      s.(workers := s.workers[w := me.(phase := AwaitLock, value := Correlation(me.a, me.b, me.offset))])
    case AwaitLock =>
      if s.lock == 0 then s else s.(lock := s.lock - 1, workers := s.workers[w := me.(phase := Comparing)])
    case Comparing =>
      s.(workers := s.workers[w := me.(phase := if s.bestValue < me.value then StoringValue else Reporting)])
    case StoringValue => s.(bestValue := me.value, workers := s.workers[w := me.(phase := StoringOffset)])
    case StoringOffset => s.(bestOffset := me.offset, workers := s.workers[w := me.(phase := CountingJob)])
    case CountingJob => s.(jobs := s.jobs + 1, workers := s.workers[w := me.(phase := Reporting)])
    case Reporting =>
      s.(reports := s.reports + 1, reported := s.reported + [me.offset],
         workers := s.workers[w := me.(phase := Unlocking)])
    case Unlocking => s.(lock := s.lock + 1, workers := s.workers[w := me.(phase := AwaitOffset)])
  }

  // ----- The counter -----

  function CounterStep(s: State): State {
    match s.counter
    case Counting(idx) =>
      if idx >= ORDER then s.(counter := Announcing)
      else if s.reports == 0 then s
      else s.(reports := s.reports - 1, counter := Counting(idx + 1))
    case Announcing => s.(allDone := s.allDone + 1, counter := Counting(0))
  }

  function AgentStep(s: State, a: Agent): (r: State)
    requires Shaped(s)
    ensures Shaped(r) && r.a == s.a && r.b == s.b
  {
    match a
    case TheMaster => MasterStep(s)
    case TheWorker(w) => if w < WORKERS then WorkerStep(s, w) else s
    case TheCounter => CounterStep(s)
  }

  /** The state after a schedule. */
  function Reached(s: State, schedule: seq<Agent>): (r: State)
    requires Shaped(s)
    ensures Shaped(r) && r.a == s.a && r.b == s.b
  {
    if schedule == [] then s else AgentStep(Reached(s, schedule[..|schedule| - 1]), schedule[|schedule| - 1])
  }
}
