/** The main results on the correlator, for every order in which its threads take their steps. */
module CorrelatorTheorems {
  import opened Occurrences
  import opened Correlator
  import opened CorrelatorProof

  /** The data, and whatever the shared variables hold at the start. */
  datatype Start = Start(a: seq<real>, b: seq<real>, value: real, offset: nat, jobs: nat) {
    predicate Valid() { |a| == |b| == ORDER }
  }

  function StateAfter(start: Start, schedule: seq<Agent>): (s: State)
    requires start.Valid()
    ensures Shaped(s) && s.a == start.a && s.b == start.b
  {
    Reached(InitialState(start.a, start.b, start.value, start.offset, start.jobs), schedule)
  }

  lemma InitialInv(start: Start)
    requires start.Valid()
    ensures Inv(InitialState(start.a, start.b, start.value, start.offset, start.jobs))
  {
    var s := InitialState(start.a, start.b, start.value, start.offset, start.jobs);
    forall f: nat ensures Places(s, f) == 0 {
      PushN([], 0, f);
    }
    hide Places, BestOf, N;
    assert OffsetsOk(s);
    assert forall w :: 0 <= w < WORKERS ==> s.workers[w] == IDLE && s.data[w] == [] && s.start[w] == 0;
  }

  lemma AgentKeepsInv(s: State, a: Agent)
    requires Inv(s)
    ensures Inv(AgentStep(s, a))
  {
    hide Inv, MasterStep, WorkerStep, CounterStep;
    match a
    case TheMaster => MasterKeepsInv(s);
    case TheWorker(w) => if w < WORKERS { WorkerKeepsInv(s, w); }
    case TheCounter => CounterKeepsInv(s);
  }

  lemma {:induction false} InvOfRun(start: Start, schedule: seq<Agent>)
    requires start.Valid()
    ensures Inv(StateAfter(start, schedule))
  {
    hide Inv, AgentStep;
    if schedule == [] {
      InitialInv(start);
    } else {
      var before := schedule[..|schedule| - 1];
      InvOfRun(start, before);
      AgentKeepsInv(StateAfter(start, before), schedule[|schedule| - 1]);
    }
  }

  // ----- The lock -----

  /** From the moment the master has made it there is one lock token: in the pipe, or with the only worker between
      reading it and writing it back. */
  lemma OneLock(start: Start, schedule: seq<Agent>, v: nat, w: nat)
    requires start.Valid() && v < WORKERS && w < WORKERS
    ensures var s := StateAfter(start, schedule);
      && (GaveLock(s.master) ==> s.lock + InSections(s.workers) == 1)
      && (InSection(s.workers[v].phase) && InSection(s.workers[w].phase) ==> v == w)
  {
    InvOfRun(start, schedule);
    var s := StateAfter(start, schedule);
    hide StateAfter, OffsetsOk, BestOk, CountOk, WorkerDataOk, OutputOk, ValueOk, InSections;
    if InSection(s.workers[v].phase) {
      AloneInSection(s, v);
    }
  }

  // ----- The result -----

  /** A best correlation, and an offset that has it; offset 0 if none is above the starting value. */
  ghost predicate IsBest(a: seq<real>, b: seq<real>, value: real, offset: nat) {
    && (forall f :: 0 <= f < 8 ==> Correlation(a, b, f) <= value)
    && value >= -1000000.0
    && (value > -1000000.0 ==> offset < 8 && Correlation(a, b, offset) == value)
    && (value == -1000000.0 ==> offset == 0)
  }

  /** The correlation, written out: all eight products, with b moved round by the offset. */
  lemma EightProducts(a: seq<real>, b: seq<real>, o: nat)
    requires |a| == |b| == 8
    ensures Correlation(a, b, o)
            == a[0] * b[o % 8] + a[1] * b[(1 + o) % 8] + a[2] * b[(2 + o) % 8] + a[3] * b[(3 + o) % 8]
               + a[4] * b[(4 + o) % 8] + a[5] * b[(5 + o) % 8] + a[6] * b[(6 + o) % 8] + a[7] * b[(7 + o) % 8]
  {
    TermWritten(a, b, o, 0);
    TermWritten(a, b, o, 1);
    TermWritten(a, b, o, 2);
    TermWritten(a, b, o, 3);
    TermWritten(a, b, o, 4);
    TermWritten(a, b, o, 5);
    TermWritten(a, b, o, 6);
    TermWritten(a, b, o, 7);
    EightTerms(a, b, o);
    hide Correlation, Term, SumOfTerms;
  }

  lemma TermWritten(a: seq<real>, b: seq<real>, o: nat, i: nat)
    requires |a| == |b| == 8 && i < 8
    ensures Term(a, b, o, i) == a[i] * b[(i + o) % 8]
  {
  }

  lemma EightTerms(a: seq<real>, b: seq<real>, o: nat)
    ensures Correlation(a, b, o)
            == Term(a, b, o, 0) + Term(a, b, o, 1) + Term(a, b, o, 2) + Term(a, b, o, 3)
               + Term(a, b, o, 4) + Term(a, b, o, 5) + Term(a, b, o, 6) + Term(a, b, o, 7)
  {
    assert SumOfTerms(a, b, o, 0) == 0.0;
    hide Term, SumOfTerms;
    FourTerms(a, b, o, 0);
    FourTerms(a, b, o, 4);
  }

  lemma {:induction false} BestOfIsBest(a: seq<real>, b: seq<real>, q: seq<nat>)
    ensures var best := BestOf(a, b, q);
      && (forall i :: 0 <= i < |q| ==> Correlation(a, b, q[i]) <= best.value)
      && best.value >= WORST
      && (best.value > WORST ==> best.offset in q && Correlation(a, b, best.offset) == best.value)
      && (best.value == WORST ==> best.offset == 0)
      && best.jobs <= |q|
  {
    hide Correlation;
    if q != [] {
      BestOfIsBest(a, b, q[..|q| - 1]);
    }
  }

  lemma EveryOffsetOnce(s: State, f: nat)
    requires Inv(s) && IsDone(s.master)
    ensures f in s.reported <==> f < ORDER
  {
    AllReported(s);
    hide LockOk, BestOk, CountOk, WorkerDataOk, OutputOk, ValueOk, Inv;
    NotHeld(s.workers, f);
    assert Places(s, f) == if f < OfferedBy(s.master) then 1 else 0;
    assert N(s.offsets, f) == 0;
  }

  lemma NotHeld(ws: seq<Worker>, f: nat)
    requires |ws| == WORKERS && Holding(ws) == 0
    ensures HoldingOf(ws, f) == 0
  {
  }

  lemma BestOfAll(a: seq<real>, b: seq<real>, q: seq<nat>)
    requires forall f: nat :: f in q <==> f < ORDER
    ensures IsBest(a, b, BestOf(a, b, q).value, BestOf(a, b, q).offset)
  {
    BestOfIsBest(a, b, q);
    hide BestOf, Correlation;
    forall f | 0 <= f < ORDER ensures Correlation(a, b, f) <= BestOf(a, b, q).value {
      assert f in q;
      var i :| 0 <= i < |q| && q[i] == f;
    }
  }

  lemma ReportedIsBest(s: State)
    requires Inv(s) && IsDone(s.master)
    ensures var best := BestOf(s.a, s.b, s.reported); IsBest(s.a, s.b, best.value, best.offset)
  {
    hide Inv, BestOf, IsBest;
    forall f: nat ensures f in s.reported <==> f < ORDER {
      EveryOffsetOnce(s, f);
    }
    BestOfAll(s.a, s.b, s.reported);
  }

  /** Whatever the order of steps, what the master writes to best_correlation and best_offset is the maximum over all
      offsets and an offset that attains it. */
  lemma BestIsMaximum(start: Start, schedule: seq<Agent>)
    requires start.Valid() && StateAfter(start, schedule).master.Finished?
    ensures var s := StateAfter(start, schedule);
      |s.values| == |s.places| == 1 && IsBest(start.a, start.b, s.values[0], s.places[0])
  {
    InvOfRun(start, schedule);
    var s := StateAfter(start, schedule);
    ReportedIsBest(s);
    hide StateAfter, BestOf, IsBest, OffsetsOk, LockOk, CountOk, WorkerDataOk, ValueOk, BestOk;
  }

  /** Already when all_done has been read the shared variables hold the result, and they stay as they are. */
  lemma GlobalsAreFinal(start: Start, schedule: seq<Agent>, more: Agent)
    requires start.Valid() && IsDone(StateAfter(start, schedule).master)
    ensures var s := StateAfter(start, schedule);
      IsBest(start.a, start.b, s.bestValue, s.bestOffset) && Globals(AgentStep(s, more)) == Globals(s)
  {
    InvOfRun(start, schedule);
    var s := StateAfter(start, schedule);
    ReportedIsBest(s);
    GlobalsAreBest(s);
    AllReported(s);
    hide StateAfter, BestOf, IsBest, Inv;
    if more.TheWorker? && more.w < WORKERS {
      OneOf(s.workers, more.w);
      IdleKeepsGlobals(s, more.w);
      hide WorkerStep;
    }
  }

  lemma IdleKeepsGlobals(s: State, w: nat)
    requires Shaped(s) && w < WORKERS && !HasOffset(s.workers[w].phase)
    ensures Globals(WorkerStep(s, w)) == Globals(s)
  {
    hide Correlation;
  }

  // ----- Somebody can always go on -----

  ghost predicate Waits(s: State, w: nat)
    requires Shaped(s) && w < WORKERS
  {
    (s.workers[w].phase == AwaitOffset && s.offsets == []) || (s.workers[w].phase == AwaitLock && s.lock == 0)
  }

  lemma WorkerMoves(s: State, w: nat)
    requires Shaped(s) && w < WORKERS && WorkerDataOk(s, w) && s.master == AwaitDone && !Waits(s, w)
    ensures WorkerStep(s, w) != s
  {
    hide Item, Correlation;
    var r := WorkerStep(s, w);
    if s.workers[w].phase == Receiving && |s.workers[w].b| < ORDER {
      assert |r.data[w]| < |s.data[w]|;
    } else {
      assert r.workers[w].phase != s.workers[w].phase;
    }
  }

  lemma AllWait(s: State)
    requires Shaped(s) && LockOk(s) && OffsetsOk(s) && s.master == AwaitDone
    requires forall w :: 0 <= w < WORKERS ==> Waits(s, w)
    ensures |s.reported| == ORDER
  {
    hide Places;
    assert Waits(s, 0) && Waits(s, 1) && Waits(s, 2) && Waits(s, 3);
    assert InSections(s.workers) == 0;
  }

  lemma SomeWorkerMoves(s: State) returns (w: nat)
    requires Inv(s) && s.master == AwaitDone && |s.reported| < ORDER
    ensures w < WORKERS && WorkerStep(s, w) != s
  {
    hide CountOk, BestOk, OutputOk, ValueOk, WorkerDataOk, WorkerStep, LockOk, OffsetsOk, Waits;
    w := 0;
    if forall v :: 0 <= v < WORKERS ==> Waits(s, v) {
      AllWait(s);
    } else {
      w :| 0 <= w < WORKERS && !Waits(s, w);
      WorkerMoves(s, w);
    }
  }

  lemma MasterMoves(s: State)
    requires Shaped(s) && !s.master.Finished? && (s.master.AwaitDone? ==> s.allDone > 0)
    ensures MasterStep(s).master != s.master
  {
  }

  /** No deadlock: until the result has been written, some thread can take a step that changes the state. */
  lemma SomeoneMoves(start: Start, schedule: seq<Agent>) returns (a: Agent)
    requires start.Valid() && !StateAfter(start, schedule).master.Finished?
    ensures AgentStep(StateAfter(start, schedule), a) != StateAfter(start, schedule)
  {
    InvOfRun(start, schedule);
    var s := StateAfter(start, schedule);
    hide StateAfter, BestOk, OutputOk, ValueOk, WorkerDataOk, OffsetsOk, LockOk;
    if s.master != AwaitDone || s.allDone > 0 {
      a := TheMaster;
      MasterMoves(s);
    } else if s.counter == Announcing || s.counter.idx >= ORDER || s.reports > 0 {
      a := TheCounter;
      assert CounterStep(s).counter != s.counter;
    } else {
      var w := SomeWorkerMoves(s);
      a := TheWorker(w);
    }
  }

  // ----- The unrolled loop -----

  lemma OneTerm(a: seq<real>, b: seq<real>, offset: nat, n: nat)
    ensures SumOfTerms(a, b, offset, n + 1) == SumOfTerms(a, b, offset, n) + Term(a, b, offset, n)
  {
  }

  lemma FourTerms(a: seq<real>, b: seq<real>, offset: nat, n: nat)
    ensures SumOfTerms(a, b, offset, n + 4) ==
            SumOfTerms(a, b, offset, n) + ((Term(a, b, offset, n) + Term(a, b, offset, n + 1))
                                           + (Term(a, b, offset, n + 2) + Term(a, b, offset, n + 3)))
  {
    hide Term, SumOfTerms;
    OneTerm(a, b, offset, n);
    OneTerm(a, b, offset, n + 1);
    OneTerm(a, b, offset, n + 2);
    OneTerm(a, b, offset, n + 3);
  }

  function Times(x: real, y: real): real {
    x * y
  }

  lemma TermIs(a: seq<real>, b: seq<real>, offset: nat, i: nat)
    requires |a| == |b| == ORDER && i < ORDER
    ensures Term(a, b, offset, i) == Times(a[i], b[(i + offset) % ORDER])
  {
  }

  /** CORRELATOR: four products at a time. */
  method Correlate(a: seq<real>, b: seq<real>, offset: nat) returns (retVal: real)
    requires |a| == |b| == ORDER
    ensures retVal == Correlation(a, b, offset)
  {
    assert SumOfTerms(a, b, offset, 0) == 0.0;
    hide Term, SumOfTerms, Times;
    retVal := 0.0;
    var i := 0;
    while i < ORDER
      invariant 0 <= i <= ORDER && i % 4 == 0
      invariant retVal == SumOfTerms(a, b, offset, i)
    {
      var p0 := Times(a[i], b[(i + offset) % ORDER]);
      var p1 := Times(a[i + 1], b[(i + 1 + offset) % ORDER]);
      var p2 := Times(a[i + 2], b[(i + 2 + offset) % ORDER]);
      var p3 := Times(a[i + 3], b[(i + 3 + offset) % ORDER]);
      TermIs(a, b, offset, i);
      TermIs(a, b, offset, i + 1);
      TermIs(a, b, offset, i + 2);
      TermIs(a, b, offset, i + 3);
      FourTerms(a, b, offset, i);
      retVal := retVal + ((p0 + p1) + (p2 + p3));
      i := i + 4;
    }
  }
}
