/** The correlator always finishes: there is a bound on the steps that change anything, and until the result is
    written some thread can take one, also when all pipes have depth 1. */
module CorrelatorTermination {
  import opened Correlator
  import opened CorrelatorProof
  import opened CorrelatorTheorems

  // ----- What is left to do -----

  function Rest(total: nat, done: nat): nat { if done < total then total - done else 0 }

  function MasterRest(m: Master): nat {
    match m
    case Starting(i) => 500 + 4 * Rest(WORKERS, i)
    case Sending(idx, k) => 200 + 20 * Rest(ORDER, idx) + 2 * Rest(2 * WORKERS, k)
    case ResettingCounter => 199 case ResettingValue => 198 case ResettingOffset => 197 case GivingLock => 196
    case Offering(idx) => 4 + 14 * Rest(ORDER, idx)
    case AwaitDone => 3 case WritingValue => 2 case WritingOffset => 1 case Finished => 0
  }

  /** A report is still to be made from phase Reporting on back. */
  function PhaseRest(p: Phase): nat {
    match p
    case AwaitStart => 0 case Receiving => 1 case AwaitOffset => 0
    case Correlating => 12 case AwaitLock => 11 case Comparing => 10 case StoringValue => 9 case StoringOffset => 8
    case CountingJob => 7 case Reporting => 6 case Unlocking => 1
  }

  function CounterRest(c: Counter): nat {
    match c
    case Counting(idx) => if idx < ORDER then idx else ORDER
    case Announcing => ORDER - 1
  }

  function WorkerRest(s: State, w: nat): nat
    requires Shaped(s) && w < WORKERS
  {
    3 * s.start[w] + |s.data[w]| + PhaseRest(s.workers[w].phase)
  }

  function WorkersRest(s: State): nat
    requires Shaped(s)
  {
    WorkerRest(s, 0) + WorkerRest(s, 1) + WorkerRest(s, 2) + WorkerRest(s, 3)
  }

  /** Everything in a pipe stands for the steps that it makes possible. */
  function Remaining(s: State): nat
    requires Shaped(s)
  {
    MasterRest(s.master) + WorkersRest(s) + 13 * |s.offsets| + 3 * s.reports + CounterRest(s.counter) + s.allDone
  }

  lemma OneRest(s: State, t: State, w: nat)
    requires Shaped(s) && Shaped(t) && w < WORKERS
    requires forall v :: 0 <= v < WORKERS && v != w ==>
               t.start[v] == s.start[v] && t.data[v] == s.data[v] && t.workers[v].phase == s.workers[v].phase
    ensures WorkersRest(t) - WorkersRest(s) == WorkerRest(t, w) - WorkerRest(s, w)
  {
    assert w in {0, 1, 2, 3};
    hide PhaseRest;
  }

  /** The parts that a step of worker w changes. */
  function Around(s: State, w: nat): nat
    requires Shaped(s) && w < WORKERS
  {
    WorkerRest(s, w) + 13 * |s.offsets| + 3 * s.reports
  }

  lemma WorkerMovesOn(s: State, w: nat)
    requires Shaped(s) && w < WORKERS && WorkerStep(s, w) != s
    ensures Around(WorkerStep(s, w), w) < Around(s, w)
  {
    hide Correlation;
  }

  lemma WorkerTouches(s: State, w: nat)
    requires Shaped(s) && w < WORKERS
    ensures var t := WorkerStep(s, w);
      && Shaped(t) && t.master == s.master && t.counter == s.counter && t.allDone == s.allDone
      && forall v :: 0 <= v < WORKERS && v != w ==>
           t.start[v] == s.start[v] && t.data[v] == s.data[v] && t.workers[v].phase == s.workers[v].phase
  {
    hide Correlation;
  }

  lemma WorkerUsesUp(s: State, w: nat)
    requires Shaped(s) && w < WORKERS && WorkerStep(s, w) != s
    ensures Remaining(WorkerStep(s, w)) < Remaining(s)
  {
    hide WorkerStep, MasterRest, CounterRest, WorkersRest, WorkerRest;
    WorkerTouches(s, w);
    WorkerMovesOn(s, w);
    OneRest(s, WorkerStep(s, w), w);
  }

  lemma StartUsesUp(s: State)
    requires Shaped(s) && s.master.Starting? && s.master.i < WORKERS
    ensures Remaining(MasterStep(s)) < Remaining(s)
  {
    OneRest(s, MasterStep(s), s.master.i);
    hide WorkersRest, PhaseRest, CounterRest;
  }

  lemma SendUsesUp(s: State)
    requires Shaped(s) && s.master.Sending? && s.master.idx < ORDER && s.master.k < 2 * WORKERS
    ensures Remaining(MasterStep(s)) < Remaining(s)
  {
    OneRest(s, MasterStep(s), s.master.k / 2);
    hide WorkersRest, PhaseRest, CounterRest;
  }

  lemma SameWorkers(s: State, t: State)
    requires Shaped(s) && Shaped(t) && t.start == s.start && t.data == s.data && t.workers == s.workers
    ensures WorkersRest(t) == WorkersRest(s)
  {
  }

  lemma OtherStepUsesUp(s: State)
    requires Shaped(s) && MasterStep(s) != s
    requires !(s.master.Starting? && s.master.i < WORKERS)
    requires !(s.master.Sending? && s.master.idx < ORDER && s.master.k < 2 * WORKERS)
    ensures Remaining(MasterStep(s)) < Remaining(s)
  {
    hide WorkersRest, CounterRest;
    SameWorkers(s, MasterStep(s));
  }

  lemma MasterUsesUp(s: State)
    requires Shaped(s) && MasterStep(s) != s
    ensures Remaining(MasterStep(s)) < Remaining(s)
  {
    if s.master.Starting? && s.master.i < WORKERS {
      StartUsesUp(s);
      hide *;
    } else if s.master.Sending? && s.master.idx < ORDER && s.master.k < 2 * WORKERS {
      SendUsesUp(s);
      hide *;
    } else {
      OtherStepUsesUp(s);
      hide *;
    }
  }

  lemma CounterUsesUp(s: State)
    requires Shaped(s) && CounterStep(s) != s
    ensures Remaining(CounterStep(s)) < Remaining(s)
  {
    OneRest(s, CounterStep(s), 0);
    hide WorkersRest, PhaseRest, MasterRest;
  }

  /** Every step that changes anything uses up some of what is left to do. */
  lemma StepUsesUp(s: State, a: Agent)
    requires Shaped(s) && AgentStep(s, a) != s
    ensures Remaining(AgentStep(s, a)) < Remaining(s)
  {
    hide Remaining, MasterStep, WorkerStep, CounterStep;
    match a
    case TheMaster => MasterUsesUp(s);
    case TheWorker(w) => WorkerUsesUp(s, w);
    case TheCounter => CounterUsesUp(s);
  }

  // ----- Runs -----

  /** How many steps of a schedule changed anything. */
  function Changes(start: Start, schedule: seq<Agent>): nat
    requires start.Valid()
  {
    if schedule == [] then 0
    else
      var before := schedule[..|schedule| - 1];
      Changes(start, before) + if StateAfter(start, schedule) != StateAfter(start, before) then 1 else 0
  }

  lemma OneMoreStep(start: Start, schedule: seq<Agent>, a: Agent)
    requires start.Valid()
    ensures StateAfter(start, schedule + [a]) == AgentStep(StateAfter(start, schedule), a)
  {
    hide AgentStep;
    assert (schedule + [a])[..|schedule|] == schedule;
  }

  lemma InitiallyRemaining(start: Start)
    requires start.Valid()
    ensures Remaining(StateAfter(start, [])) == 516
  {
  }

  /** In every interleaving, however long, the threads change the state at most 516 times. */
  lemma {:induction false} ChangesBounded(start: Start, schedule: seq<Agent>)
    requires start.Valid()
    ensures Changes(start, schedule) + Remaining(StateAfter(start, schedule)) <= 516
  {
    hide Remaining, AgentStep, StateAfter;
    if schedule == [] {
      InitiallyRemaining(start);
    } else {
      var before, a := schedule[..|schedule| - 1], schedule[|schedule| - 1];
      ChangesBounded(start, before);
      assert schedule == before + [a];
      OneMoreStep(start, before, a);
      var s := StateAfter(start, before);
      if AgentStep(s, a) != s {
        StepUsesUp(s, a);
      }
    }
  }

  // ----- Pipes of depth 1 -----

  /** A step that writes no pipe, or one that was empty. */
  ghost predicate Gentle(s: State, t: State)
    requires Shaped(s) && Shaped(t)
  {
    && (forall w :: 0 <= w < WORKERS ==> t.start[w] <= 1 || t.start[w] <= s.start[w])
    && (forall w :: 0 <= w < WORKERS ==> |t.data[w]| <= 1 || |t.data[w]| <= |s.data[w]|)
    && (t.lock <= 1 || t.lock <= s.lock) && (|t.offsets| <= 1 || |t.offsets| <= |s.offsets|)
    && (t.reports <= 1 || t.reports <= s.reports) && (t.allDone <= 1 || t.allDone <= s.allDone)
  }

  predicate CounterWaits(s: State) {
    s.counter.Counting? && s.counter.idx < ORDER && s.reports == 0
  }

  lemma CounterGoesOn(s: State)
    requires Shaped(s) && MasterOk(s.master) && OffsetsOk(s) && CountOk(s) && !CounterWaits(s)
    ensures CounterStep(s) != s && Gentle(s, CounterStep(s))
  {
    hide Places, Holding;
  }

  /** Reading an empty pipe. */
  predicate Blocked(s: State, w: nat)
    requires Shaped(s) && w < WORKERS
  {
    match s.workers[w].phase
    case AwaitStart => s.start[w] == 0
    case Receiving => |s.workers[w].b| < ORDER && s.data[w] == []
    case AwaitOffset => s.offsets == []
    case AwaitLock => s.lock == 0
    case _ => false
  }

  lemma WorkerGoesOn(s: State, w: nat)
    requires Shaped(s) && w < WORKERS && LockOk(s) && s.reports == 0 && !Blocked(s, w)
    ensures WorkerStep(s, w) != s && Gentle(s, WorkerStep(s, w))
  {
    hide Correlation, InSections;
    var t := WorkerStep(s, w);
    assert t != s by {
      if s.workers[w].phase == Receiving && |s.workers[w].b| < ORDER {
        assert |t.data[w]| < |s.data[w]|;
      } else {
        assert t.workers[w].phase != s.workers[w].phase;
      }
    }
    OneOf(s.workers, w);
  }

  /** Why worker w waits tells how far the master has got. */
  lemma BlockedWorker(s: State, w: nat)
    requires Shaped(s) && w < WORKERS && WorkerDataOk(s, w) && Blocked(s, w) && MasterOk(s.master)
    ensures s.start[w] == 0 && s.data[w] == [] && !InSection(s.workers[w].phase)
    ensures !s.master.Starting? && !s.master.Sending? ==> s.workers[w].phase == AwaitOffset || s.workers[w].phase == AwaitLock
  {
    hide Item;
  }

  ghost predicate AllBlocked(s: State)
    requires Shaped(s)
  {
    Blocked(s, 0) && Blocked(s, 1) && Blocked(s, 2) && Blocked(s, 3)
  }

  lemma OffsetsTaken(s: State)
    requires Inv(s) && AllBlocked(s) && GaveLock(s.master)
    ensures s.offsets == [] && s.lock == 1 && |s.reported| == OfferedBy(s.master)
  {
    hide WorkerDataOk, Blocked, BestOk, OutputOk, ValueOk, Places, CountOk;
    BlockedWorker(s, 0);
    BlockedWorker(s, 1);
    BlockedWorker(s, 2);
    BlockedWorker(s, 3);
    assert InSections(s.workers) == 0;
    hide InSections, LockOk, Inv;
    assert Blocked(s, 0) && Blocked(s, 1) && Blocked(s, 2) && Blocked(s, 3);
    WaitForOffset(s, 0);
    WaitForOffset(s, 1);
    WaitForOffset(s, 2);
    WaitForOffset(s, 3);
  }

  lemma WaitForOffset(s: State, w: nat)
    requires Shaped(s) && w < WORKERS && Blocked(s, w) && s.lock == 1
    requires s.workers[w].phase == AwaitOffset || s.workers[w].phase == AwaitLock
    ensures s.workers[w].phase == AwaitOffset && s.offsets == [] && !HasOffset(s.workers[w].phase)
  {
  }

  lemma MasterGoesOn(s: State)
    requires Inv(s) && AllBlocked(s) && CounterWaits(s) && !s.master.Finished?
    ensures MasterStep(s) != s && Gentle(s, MasterStep(s))
  {
    if GaveLock(s.master) {
      OffsetsTaken(s);
    }
    forall w: nat | w < WORKERS ensures s.start[w] == 0 && s.data[w] == [] {
      assert Blocked(s, w);
      BlockedWorker(s, w);
    }
    hide WorkerDataOk, Blocked, BestOk, OutputOk, ValueOk, OffsetsOk;
    assert MasterStep(s).master != s.master;
  }

  /** No deadlock, even with pipes of depth 1: until the result has been written some thread can take a step that
      changes the state and does not need room behind other entries. */
  lemma SomeoneGoesOn(start: Start, schedule: seq<Agent>) returns (a: Agent)
    requires start.Valid() && !StateAfter(start, schedule).master.Finished?
    ensures var s := StateAfter(start, schedule); AgentStep(s, a) != s && Gentle(s, AgentStep(s, a))
  {
    InvOfRun(start, schedule);
    var s := StateAfter(start, schedule);
    hide StateAfter, BestOk, OutputOk, ValueOk, WorkerDataOk, OffsetsOk, LockOk, Gentle, MasterStep, WorkerStep, CounterStep, Blocked;
    if !CounterWaits(s) {
      a := TheCounter;
      CounterGoesOn(s);
    } else if w: nat :| w < WORKERS && !Blocked(s, w) {
      a := TheWorker(w);
      WorkerGoesOn(s, w);
    } else {
      a := TheMaster;
      MasterGoesOn(s);
    }
  }

  // ----- Finishing -----

  /** A schedule in which no thread waits in vain. */
  ghost predicate EachStepChanges(start: Start, schedule: seq<Agent>)
    requires start.Valid()
  {
    forall n :: 0 <= n < |schedule| ==> StateAfter(start, schedule[..n + 1]) != StateAfter(start, schedule[..n])
  }

  lemma {:induction false} AllAreChanges(start: Start, schedule: seq<Agent>)
    requires start.Valid() && EachStepChanges(start, schedule)
    ensures Changes(start, schedule) == |schedule|
  {
    hide StateAfter;
    if schedule != [] {
      var n := |schedule| - 1;
      var before := schedule[..n];
      assert schedule[..n + 1] == schedule;
      forall i | 0 <= i < |before| ensures StateAfter(start, before[..i + 1]) != StateAfter(start, before[..i]) {
        assert before[..i + 1] == schedule[..i + 1] && before[..i] == schedule[..i];
      }
      AllAreChanges(start, before);
    }
  }

  /** Total correctness: a run in which each step changes something has at most 516 steps, and when no thread can
      change anything any more the master has written the best correlation and its offset. */
  lemma EveryRunFinishes(start: Start, schedule: seq<Agent>)
    requires start.Valid() && EachStepChanges(start, schedule)
    ensures |schedule| <= 516
    ensures (forall a: Agent :: AgentStep(StateAfter(start, schedule), a) == StateAfter(start, schedule)) ==>
              var s := StateAfter(start, schedule);
              s.master.Finished? && |s.values| == |s.places| == 1 && IsBest(start.a, start.b, s.values[0], s.places[0])
  {
    AllAreChanges(start, schedule);
    ChangesBounded(start, schedule);
    hide StateAfter, AgentStep, Changes, Remaining, EachStepChanges, IsBest;
    if forall a: Agent :: AgentStep(StateAfter(start, schedule), a) == StateAfter(start, schedule) {
      if !StateAfter(start, schedule).master.Finished? {
        var a := SomeoneMoves(start, schedule);
      }
      BestIsMaximum(start, schedule);
    }
  }

  ghost predicate GentleFrom(start: Start, schedule: seq<Agent>, lo: nat)
    requires start.Valid()
  {
    forall n :: lo <= n < |schedule| ==> Gentle(StateAfter(start, schedule[..n]), StateAfter(start, schedule[..n + 1]))
  }

  lemma GentleOnward(start: Start, schedule: seq<Agent>, a: Agent, rest: seq<Agent>)
    requires start.Valid() && GentleFrom(start, schedule + [a] + rest, |schedule| + 1)
    requires Gentle(StateAfter(start, schedule), AgentStep(StateAfter(start, schedule), a))
    ensures schedule + ([a] + rest) == schedule + [a] + rest
    ensures GentleFrom(start, schedule + ([a] + rest), |schedule|)
  {
    OneMoreStep(start, schedule, a);
    hide StateAfter, Gentle, AgentStep;
    var all := schedule + [a] + rest;
    assert schedule + ([a] + rest) == all;
    assert all[..|schedule|] == schedule && all[..|schedule| + 1] == schedule + [a];
  }

  /** Any run can be brought to its end, with pipes of depth 1. */
  lemma {:induction false} RunCanFinish(start: Start, schedule: seq<Agent>) returns (more: seq<Agent>)
    requires start.Valid()
    ensures StateAfter(start, schedule + more).master.Finished?
    ensures GentleFrom(start, schedule + more, |schedule|)
    decreases Remaining(StateAfter(start, schedule))
  {
    hide StateAfter, AgentStep, Remaining, Gentle;
    if StateAfter(start, schedule).master.Finished? {
      more := [];
      assert schedule + [] == schedule;
    } else {
      var a := SomeoneGoesOn(start, schedule);
      StepUsesUp(StateAfter(start, schedule), a);
      OneMoreStep(start, schedule, a);
      hide GentleFrom;
      var rest := RunCanFinish(start, schedule + [a]);
      more := [a] + rest;
      GentleOnward(start, schedule, a, rest);
    }
  }
}
