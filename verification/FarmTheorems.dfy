/** The main results on the farm, for every order in which its threads take their steps. */
module FarmTheorems {
  import opened Occurrences
  import opened FreeList
  import opened Farm
  import opened FarmProof

  /** Any contents of the shared arrays at the start. */
  datatype Start = Start(next: seq<int>, jobs: seq<Job>, aMatrix: seq<nat>, bMatrix: seq<nat>) {
    predicate Shaped() {
      |next| == |jobs| == FREE_LIST_SIZE && |aMatrix| == |bMatrix| == MATRIX_SIZE
    }
  }

  ghost function StateAfter(start: Start, schedule: seq<Agent>): State {
    Reached(InitialState(start.next, start.jobs, start.aMatrix, start.bMatrix), schedule)
  }

  lemma InitiallyOwned(s: State, chain: seq<nat>)
    requires |s.workers| == WORKERS && NoJobs(s) && AllSlots(chain)
    requires s.manager.Initialising? && s.grants == [] && s.puts == [] && s.input == AwaitDimension && s.output == AwaitResult
    ensures OwnOk(s, chain)
  {
    forall f: nat ensures Resting(s, chain, f) + Working(s, f) == if f < FREE_LIST_SIZE then 1 else 0 {
      Counting(chain, f);
      PushN([], 0, f);
      hide N;
    }
  }

  lemma InitialInv(start: Start) returns (chain: seq<nat>)
    requires start.Shaped()
    ensures Inv(StateAfter(start, []), chain)
  {
    chain := seq(FREE_LIST_SIZE, k => k);
    var s := StateAfter(start, []);
    assert s == InitialState(start.next, start.jobs, start.aMatrix, start.bMatrix);
    assert Loaded(s) && NoJobs(s);
    hide WorkingOk, ResultsOk, WorkingCells, OwnOk, NoJobs, StateAfter, Loaded;
    NoJobsFine(s);
    InitiallyOwned(s, chain);
    assert FirstCells(0, 0, 0) == multiset{};
  }

  lemma Counting(chain: seq<nat>, f: nat)
    requires AllSlots(chain)
    ensures N(chain, f) == if f < FREE_LIST_SIZE then 1 else 0
  {
    CountingTo(chain, FREE_LIST_SIZE, f);
    assert chain[..FREE_LIST_SIZE] == chain;
  }

  lemma {:induction false} CountingTo(chain: seq<nat>, n: nat, f: nat)
    requires AllSlots(chain) && n <= FREE_LIST_SIZE
    ensures N(chain[..n], f) == if f < n then 1 else 0
  {
    if n > 0 {
      CountingTo(chain, n - 1, f);
      assert chain[..n] == chain[..n - 1] + [n - 1];
      PushN(chain[..n - 1], n - 1, f);
      hide N;
    }
  }

  lemma AgentKeepsInv(s: State, chain: seq<nat>, a: Agent) returns (chain': seq<nat>)
    requires Inv(s, chain)
    ensures Inv(AgentStep(s, a), chain')
  {
    chain' := if a.Manager? then NextChain(s, chain) else chain;
    assert |s.workers| == WORKERS;
    match a {
      case Manager => assert AgentStep(s, a) == ManagerStep(s); hide *; ManagerKeepsInv(s, chain);
      case Input => assert AgentStep(s, a) == InputStep(s); hide *; InputKeepsInv(s, chain);
      case Worker(w) =>
        assert AgentStep(s, a) == if w < WORKERS then WorkerStep(s, w) else s;
        hide *;
        if w < WORKERS { WorkerKeepsInv(s, chain, w); }
      case Output => assert AgentStep(s, a) == OutputStep(s); hide *; OutputKeepsInv(s, chain);
      case Environment(p) => assert AgentStep(s, a) == EnvironmentStep(s, p); hide *; EnvironmentKeepsInv(s, chain, p);
    }
  }

  lemma {:induction false} InvOfRun(start: Start, schedule: seq<Agent>) returns (chain: seq<nat>)
    requires start.Shaped()
    ensures Inv(StateAfter(start, schedule), chain)
  {
    hide Inv, AgentStep;
    if schedule == [] {
      chain := InitialInv(start);
    } else {
      var before, a := schedule[..|schedule| - 1], schedule[|schedule| - 1];
      chain := InvOfRun(start, before);
      chain := AgentKeepsInv(StateAfter(start, before), chain, a);
    }
  }

  // ----- Ownership -----

  /** The free slots form a chain from head to -1, once the manager has set it up, and each of the ten slots
      is held once in all: in that chain, in a pipe, or in one thread's hand. */
  ghost predicate WellOwned(s: State, chain: seq<nat>)
    requires |s.workers| == WORKERS
  {
    && (!s.manager.Initialising? ==> IsChain(s.next, s.head, chain))
    && forall f: nat :: Resting(s, chain, f) + Working(s, f) == if f < 10 then 1 else 0
  }

  lemma EachSlotInOnePlace(start: Start, schedule: seq<Agent>)
    requires start.Shaped()
    ensures |StateAfter(start, schedule).workers| == WORKERS
    ensures exists chain: seq<nat> :: WellOwned(StateAfter(start, schedule), chain)
  {
    var chain := InvOfRun(start, schedule);
    var s := StateAfter(start, schedule);
    hide Resting, Working, StateAfter, IsChain;
    assert WellOwned(s, chain);
  }

  /** The slot in a thread's hand: read from a pipe or taken from the list, and not yet passed on. */
  function Hand(s: State, a: Agent): seq<nat>
    requires |s.workers| == WORKERS
  {
    match a
    case Manager => ManagerHand(s)
    case Input => InputHand(s)
    case Worker(w) => if w < WORKERS then WorkerHand(s.workers[w]) else []
    case Output => OutputBusy(s) + OutputDone(s)
    case Environment(_) => []
  }

  lemma WorkersTogether(ws: seq<WorkerState>, v: nat, w: nat, f: nat)
    requires |ws| == WORKERS && v < WORKERS && w < WORKERS
    ensures N(WorkerHand(ws[v]), f) + (if v == w then 0 else N(WorkerHand(ws[w]), f)) <= InHands(ws, f)
  {
    hide N;
    assert v in {0, 1, 2, 3} && w in {0, 1, 2, 3};
  }

  lemma OutputTogether(s: State, f: nat)
    requires |s.workers| == WORKERS
    ensures N(Hand(s, Output), f) == N(OutputBusy(s), f) + N(OutputDone(s), f)
  {
    assert multiset(OutputBusy(s) + OutputDone(s)) == multiset(OutputBusy(s)) + multiset(OutputDone(s));
  }

  lemma NothingInHand(f: nat)
    ensures N([], f) == 0
  {
  }

  lemma AllHands(s: State, chain: seq<nat>, f: nat)
    requires |s.workers| == WORKERS
    ensures N(Hand(s, Manager), f) + N(Hand(s, Input), f) + N(Hand(s, Output), f) + InHands(s.workers, f) <= Held(s, chain, f)
  {
    OutputTogether(s, f);
    hide N, InHands, OutputBusy, OutputDone, ManagerHand, InputHand, GrantHand;
  }

  lemma OtherHand(s: State, a: Agent, f: nat)
    requires |s.workers| == WORKERS && a !in {Manager, Input, Output}
    ensures N(Hand(s, a), f) == if a.Worker? && a.w < WORKERS then N(WorkerHand(s.workers[a.w]), f) else 0
  {
    NothingInHand(f);
    hide N, WorkerHand;
  }

  /** Two hands together hold a slot no more often than it is held at all. */
  lemma HandsCounted(s: State, chain: seq<nat>, a: Agent, b: Agent, f: nat)
    requires |s.workers| == WORKERS && a != b
    ensures N(Hand(s, a), f) + N(Hand(s, b), f) <= Held(s, chain, f)
  {
    hide N, InHands, WorkerHand, Hand, Held;
    AllHands(s, chain, f);
    if a !in {Manager, Input, Output} {
      OtherHand(s, a, f);
    }
    if b !in {Manager, Input, Output} {
      OtherHand(s, b, f);
    }
    if a.Worker? && a.w < WORKERS {
      WorkersTogether(s.workers, a.w, if b.Worker? && b.w < WORKERS then b.w else a.w, f);
    } else if b.Worker? && b.w < WORKERS {
      WorkersTogether(s.workers, b.w, b.w, f);
    }
  }

  /** No two threads ever hold the same slot, whichever two they are. */
  lemma NoSlotShared(start: Start, schedule: seq<Agent>, a: Agent, b: Agent, f: nat)
    requires start.Shaped() && a != b
    ensures var s := StateAfter(start, schedule);
            |s.workers| == WORKERS && (f in Hand(s, a) ==> f < 10 && f !in Hand(s, b))
  {
    var chain := InvOfRun(start, schedule);
    var s := StateAfter(start, schedule);
    HandsCounted(s, chain, a, b, f);
    assert Held(s, chain, f) == if f < FREE_LIST_SIZE then 1 else 0;
    hide StateAfter, Working, Resting, Held, Hand, WorkingOk, ResultsOk, InputOk, EmitOk, CountOk, ListOk, ProtocolOk, Complete;
  }

  /** The workers never read outside the matrices. */
  lemma WorkersStayInBounds(start: Start, schedule: seq<Agent>, w: nat)
    requires start.Shaped() && w < WORKERS
    ensures var s := StateAfter(start, schedule);
            && |s.workers| == WORKERS
            && (s.workers[w].Multiplying? && s.workers[w].k < s.workers[w].d
                ==> s.workers[w].k + s.workers[w].a < 1024 && s.workers[w].k + s.workers[w].b < 1024)
  {
    var chain := InvOfRun(start, schedule);
    var s := StateAfter(start, schedule);
    hide StateAfter;
    if s.workers[w].Multiplying? && s.workers[w].k < s.workers[w].d {
      HeldAlone(s, chain, w);
      var job := JobAt(s.jobs, s.workers[w].f);
      assert JobFor(s.current, job) && WorkerOk(s.current, s.jobs, s.workers[w]);
      IndexBelow(s.current.d, job.row, s.workers[w].k);
      IndexBelow(s.current.d, job.col, s.workers[w].k);
    }
  }

  // ----- The results -----

  /** Each cell comes once in row-major order. */
  lemma {:induction false} CellInFirstCells(d: nat, i: nat, j: nat, r: nat, c: nat)
    requires j <= d
    ensures FirstCells(d, i, j)[(r, c)] == if (r < i && c < d) || (r == i && c < j) then 1 else 0
    decreases i, j
  {
    if j > 0 {
      CellInFirstCells(d, i, j - 1, r, c);
    } else if i > 0 {
      CellInFirstCells(d, i - 1, d, r, c);
    }
  }

  lemma {:induction false} FindEmitted(e: Emitted, n: nat, cell: (nat, nat)) returns (k: nat)
    requires n <= |e.rows| && n <= |e.cols| && cell in EmittedCells(e, n)
    ensures k < n && (e.rows[k], e.cols[k]) == cell
  {
    if (e.rows[n - 1], e.cols[n - 1]) == cell {
      k := n - 1;
    } else {
      k := FindEmitted(e, n - 1, cell);
    }
  }

  /** Two emissions of the same cell count twice. */
  lemma {:induction false} TwiceEmitted(e: Emitted, n: nat, k: nat, l: nat)
    requires n <= |e.rows| && n <= |e.cols| && k < l < n && (e.rows[k], e.cols[k]) == (e.rows[l], e.cols[l])
    ensures EmittedCells(e, n)[(e.rows[k], e.cols[k])] >= 2
  {
    if l < n - 1 {
      TwiceEmitted(e, n - 1, k, l);
    } else {
      OnceEmitted(e, n - 1, k);
    }
  }

  lemma {:induction false} OnceEmitted(e: Emitted, n: nat, k: nat)
    requires n <= |e.rows| && n <= |e.cols| && k < n
    ensures (e.rows[k], e.cols[k]) in EmittedCells(e, n)
  {
    if k < n - 1 {
      OnceEmitted(e, n - 1, k);
    }
  }

  /** Entry (i, j): row i of a times row j of b. */
  ghost predicate Entry(p: Problem, e: Emitted, k: nat, i: nat, j: nat) {
    k < |e.data| && k < |e.rows| && k < |e.cols| && e.rows[k] == i && e.cols[k] == j && e.data[k] == Dot(p, i, j, p.d)
  }

  /** Each column counts once: if row j of b is zero but for v in column m, the entry is v times a's at (i, m). */
  lemma OneColumn(p: Problem, i: nat, j: nat, m: nat, v: nat)
    requires p.Valid() && i < p.d && j < p.d && m < p.d
    requires forall q :: 0 <= j * p.d <= q < j * p.d + p.d && q < |p.b| ==> p.b[q] == if q == j * p.d + m then v else 0
    ensures i * p.d + m < |p.a| && Dot(p, i, j, p.d) == p.a[i * p.d + m] * v
  {
    hide Dot;
    IndexBelow(p.d, i, m);
    FirstColumns(p, i, j, m, v, p.d);
  }

  lemma {:induction false} FirstColumns(p: Problem, i: nat, j: nat, m: nat, v: nat, k: nat)
    requires p.Valid() && i < p.d && j < p.d && m < p.d && k <= p.d
    requires forall q :: 0 <= j * p.d <= q < j * p.d + p.d && q < |p.b| ==> p.b[q] == if q == j * p.d + m then v else 0
    ensures Dot(p, i, j, k) == if m < k then At(p.a, i * p.d + m, 0) * v else 0
  {
    if k > 0 {
      FirstColumns(p, i, j, m, v, k - 1);
      IndexBelow(p.d, j, k - 1);
      assert At(p.b, j * p.d + (k - 1), 0) == if k - 1 == m then v else 0;
    }
  }

  /** For every problem the environment has gone past, exactly d*d results were emitted: each cell (i, j) in
      exactly one of them, with the sum of the products of row i of a and row j of b. */
  lemma FarmMultiplies(start: Start, schedule: seq<Agent>, n: nat, i: nat, j: nat)
    requires start.Shaped() && n < |StateAfter(start, schedule).archive|
    requires i < StateAfter(start, schedule).archive[n].0.d && j < StateAfter(start, schedule).archive[n].0.d
    ensures var (p, e) := StateAfter(start, schedule).archive[n];
            && |e.rows| == |e.cols| == |e.data| == p.d * p.d
            && exists k: nat ::
              Entry(p, e, k, i, j) && forall l: nat :: l < |e.data| && l != k ==> (e.rows[l], e.cols[l]) != (i, j)
  {
    var chain := InvOfRun(start, schedule);
    var (p, e) := StateAfter(start, schedule).archive[n];
    assert Complete(p, e);
    hide StateAfter, Inv, Dot;
    CellInFirstCells(p.d, p.d, 0, i, j);
    hide FirstCells;
    var k := FindEmitted(e, |e.data|, (i, j));
    assert Entry(p, e, k, i, j);
    forall l: nat | l < |e.data| && l != k ensures (e.rows[l], e.cols[l]) != (i, j) {
      if (e.rows[l], e.cols[l]) == (i, j) {
        TwiceEmitted(e, |e.data|, if k < l then k else l, if k < l then l else k);
      }
    }
  }

  /** Also while a problem is being worked on: every value is right, and no other emission is of the same cell. */
  lemma NoWrongResult(start: Start, schedule: seq<Agent>, k: nat)
    requires start.Shaped() && k < |StateAfter(start, schedule).emitted.data|
    ensures var s := StateAfter(start, schedule);
            && |s.emitted.data| <= |s.emitted.cols| <= |s.emitted.rows|
            && Entry(s.current, s.emitted, k, s.emitted.rows[k], s.emitted.cols[k])
            && forall l: nat :: l < |s.emitted.data| && l != k ==>
                 (s.emitted.rows[k], s.emitted.cols[k]) != (s.emitted.rows[l], s.emitted.cols[l])
  {
    var chain := InvOfRun(start, schedule);
    var s := StateAfter(start, schedule);
    var e := s.emitted;
    hide StateAfter, WorkingCells;
    forall l: nat | l < |e.data| && l != k ensures (e.rows[k], e.cols[k]) != (e.rows[l], e.cols[l]) {
      if (e.rows[k], e.cols[k]) == (e.rows[l], e.cols[l]) {
        TwiceEmitted(e, |e.data|, if k < l then k else l, if k < l then l else k);
        SentOnce(s, e.rows[k], e.cols[k]);
      }
    }
  }

  lemma SentOnce(s: State, r: nat, c: nat)
    requires WellShaped(s) && s.current.Valid() && InputOk(s)
    ensures Sent(s)[(r, c)] <= 1
  {
    CellInFirstCells(s.current.d, s.current.d, 0, r, c);
    if s.input.Requesting? || s.input.Requested? || s.input.Filling? || s.input.SendingJob? {
      CellInFirstCells(s.current.d, s.input.i, s.input.j, r, c);
    }
    hide FirstCells;
  }
}
