/** What every step of the correlator keeps. */
module CorrelatorProof {
  import opened Occurrences
  import opened Correlator

  // ----- Where the master is -----

  function StartedBy(m: Master): nat {
    if m.Starting? then m.i else WORKERS
  }

  function Min(x: int, y: int): int {
    if x < y then x else y
  }

  /** How many items worker w has been sent. */
  function SentBy(m: Master, w: nat): int {
    match m
    case Starting(_) => 0
    case Sending(idx, k) => 2 * idx + (if k <= 2 * w then 0 else Min(k - 2 * w, 2))
    case _ => 2 * ORDER
  }

  function OfferedBy(m: Master): nat {
    if m.Offering? then m.idx else if m.AwaitDone? || IsDone(m) then ORDER else 0
  }

  predicate HasReset(m: Master) {
    m.GivingLock? || GaveLock(m)
  }

  predicate GaveLock(m: Master) {
    m.Offering? || m.AwaitDone? || IsDone(m)
  }

  /** all_done has been read. */
  predicate IsDone(m: Master) {
    m.WritingValue? || m.WritingOffset? || m.Finished?
  }

  ghost predicate MasterOk(m: Master) {
    && (m.Starting? ==> m.i <= WORKERS)
    && (m.Sending? ==> m.idx <= ORDER && m.k <= 2 * WORKERS && (m.idx == ORDER ==> m.k == 0))
    && (m.Offering? ==> m.idx <= ORDER)
  }

  // ----- The data -----

  /** What worker w has received and what is on its way are the items sent so far, in order. */
  ghost predicate DataOk(a: seq<real>, b: seq<real>, m: Master, start: nat, data: seq<real>, me: Worker, w: nat)
    requires |a| == |b| == ORDER
  {
    && start + (if me.phase == AwaitStart then 0 else 1) == (if w < StartedBy(m) then 1 else 0)
    && |me.b| <= |me.a| <= |me.b| + 1 && |me.a| <= ORDER
    && me.a == a[..|me.a|] && me.b == b[..|me.b|]
    && (me.phase == AwaitStart ==> me.a == [])
    && (me.phase != AwaitStart && me.phase != Receiving ==> |me.b| == ORDER)
    && |me.a| + |me.b| + |data| == SentBy(m, w)
    && (forall i :: 0 <= i < |data| && |me.a| + |me.b| + i < 2 * ORDER ==> data[i] == Item(a, b, |me.a| + |me.b| + i))
  }

  // ----- Counting over the workers -----

  predicate InSection(p: Phase) {
    p == Comparing || p == StoringValue || p == StoringOffset || p == CountingJob || p == Reporting || p == Unlocking
  }

  /** The worker has an offset that it has not reported. */
  predicate HasOffset(p: Phase) {
    p == Correlating || p == AwaitLock
    || p == Comparing || p == StoringValue || p == StoringOffset || p == CountingJob || p == Reporting
  }

  function Section1(me: Worker): nat { if InSection(me.phase) then 1 else 0 }
  function Holds1(me: Worker): nat { if HasOffset(me.phase) then 1 else 0 }
  function HoldsN(me: Worker, f: nat): nat { if HasOffset(me.phase) && me.offset == f then 1 else 0 }

  function InSections(ws: seq<Worker>): nat
    requires |ws| == WORKERS
  {
    Section1(ws[0]) + Section1(ws[1]) + Section1(ws[2]) + Section1(ws[3])
  }

  function Holding(ws: seq<Worker>): nat
    requires |ws| == WORKERS
  {
    Holds1(ws[0]) + Holds1(ws[1]) + Holds1(ws[2]) + Holds1(ws[3])
  }

  function HoldingOf(ws: seq<Worker>, f: nat): nat
    requires |ws| == WORKERS
  {
    HoldsN(ws[0], f) + HoldsN(ws[1], f) + HoldsN(ws[2], f) + HoldsN(ws[3], f)
  }

  /** One lock token, in the pipe or with a worker, as soon as the master has made it. */
  ghost predicate LockOk(s: State)
    requires Shaped(s)
  {
    s.lock + InSections(s.workers) == if GaveLock(s.master) then 1 else 0
  }

  /** Where offset f is. */
  ghost function Places(s: State, f: nat): nat
    requires Shaped(s)
  {
    N(s.offsets, f) + HoldingOf(s.workers, f) + N(s.reported, f)
  }

  /** Every offset that has been offered is waiting, or with one worker, or reported; and it is so once. */
  ghost predicate OffsetsOk(s: State)
    requires Shaped(s)
  {
    && (forall f: nat :: Places(s, f) == if f < OfferedBy(s.master) then 1 else 0)
    && |s.offsets| + Holding(s.workers) + |s.reported| == OfferedBy(s.master)
  }

  ghost predicate CountOk(s: State) {
    && (s.counter.Counting? ==> s.counter.idx <= ORDER)
    && |s.reported| == s.reports + (if s.counter.Counting? then s.counter.idx else ORDER)
                     + ORDER * (s.allDone + if IsDone(s.master) then 1 else 0)
  }

  // ----- The best result -----

  datatype Best = Best(value: real, offset: nat, jobs: nat)

  /** The shared variables after the results for these offsets have been taken in, in this order. */
  function BestOf(a: seq<real>, b: seq<real>, q: seq<nat>): Best {
    if q == [] then Best(WORST, 0, 0)
    else
      var best, f := BestOf(a, b, q[..|q| - 1]), q[|q| - 1];
      var v := Correlation(a, b, f);
      if best.value < v then Best(v, f, best.jobs + 1) else best
  }

  function Globals(s: State): Best {
    Best(s.bestValue, s.bestOffset, s.jobs)
  }

  /** The value of a worker that has one. */
  ghost predicate ValueOk(a: seq<real>, b: seq<real>, me: Worker) {
    HasOffset(me.phase) && me.phase != Correlating ==> me.value == Correlation(a, b, me.offset)
  }

  /** The shared variables while worker me is in its critical section. */
  ghost predicate SectionOk(g: Best, before: Best, me: Worker) {
    match me.phase
    case StoringValue => g == before && before.value < me.value
    case StoringOffset => g == before.(value := me.value) && before.value < me.value
    case CountingJob => g == Best(me.value, me.offset, before.jobs) && before.value < me.value
    case Reporting => g == if before.value < me.value then Best(me.value, me.offset, before.jobs + 1) else before
    case _ => g == before
  }

  ghost predicate BestOk(s: State)
    requires Shaped(s)
  {
    && (s.master.ResettingValue? ==> s.jobs == 0)
    && (s.master.ResettingOffset? ==> s.jobs == 0 && s.bestValue == WORST)
    && (HasReset(s.master) ==>
          var before := BestOf(s.a, s.b, s.reported);
          && (forall w :: 0 <= w < WORKERS && InSection(s.workers[w].phase) ==> SectionOk(Globals(s), before, s.workers[w]))
          && (InSections(s.workers) == 0 ==> Globals(s) == before))
  }

  ghost predicate OutputOk(s: State) {
    var best := BestOf(s.a, s.b, s.reported);
    && s.values == (if s.master.WritingOffset? || s.master.Finished? then [best.value] else [])
    && s.places == (if s.master.Finished? then [best.offset] else [])
  }

  ghost predicate WorkerDataOk(s: State, w: nat)
    requires Shaped(s) && w < WORKERS
  {
    DataOk(s.a, s.b, s.master, s.start[w], s.data[w], s.workers[w], w)
  }

  ghost predicate Inv(s: State) {
    && Shaped(s) && MasterOk(s.master)
    && (forall w :: 0 <= w < WORKERS ==> WorkerDataOk(s, w))
    && LockOk(s) && OffsetsOk(s) && CountOk(s)
    && (forall w :: 0 <= w < WORKERS ==> ValueOk(s.a, s.b, s.workers[w]))
    && BestOk(s) && OutputOk(s)
  }

  // ----- Replacing one worker -----

  lemma SetWorker(ws: seq<Worker>, w: nat, x: Worker)
    requires |ws| == WORKERS && w < WORKERS
    ensures InSections(ws[w := x]) == InSections(ws) - Section1(ws[w]) + Section1(x)
    ensures Holding(ws[w := x]) == Holding(ws) - Holds1(ws[w]) + Holds1(x)
  {
    hide Section1, Holds1;
  }

  lemma SetWorkerOf(ws: seq<Worker>, w: nat, x: Worker, f: nat)
    requires |ws| == WORKERS && w < WORKERS
    ensures HoldingOf(ws[w := x], f) == HoldingOf(ws, f) - HoldsN(ws[w], f) + HoldsN(x, f)
  {
    hide HoldsN;
  }

  lemma OneOf(ws: seq<Worker>, w: nat)
    requires |ws| == WORKERS && w < WORKERS
    ensures InSections(ws) >= Section1(ws[w]) && Holding(ws) >= Holds1(ws[w])
  {
    hide Section1, Holds1;
  }

  lemma TwoOf(ws: seq<Worker>, v: nat, w: nat)
    requires |ws| == WORKERS && v < WORKERS && w < WORKERS && v != w
    ensures InSections(ws) >= Section1(ws[v]) + Section1(ws[w])
  {
    hide Section1;
  }

  /** Once every offset has been reported, none is left anywhere else. */
  lemma AllReported(s: State)
    requires Shaped(s) && MasterOk(s.master) && OffsetsOk(s) && CountOk(s) && IsDone(s.master)
    ensures |s.reported| == ORDER && s.offsets == [] && Holding(s.workers) == 0
  {
    hide Places, Holding;
  }

  // ----- The counter -----

  lemma CounterKeepsInv(s: State)
    requires Inv(s)
    ensures Inv(CounterStep(s))
  {
    var r := CounterStep(s);
    CounterKeepsCount(s);
    SameOffsets(s, r);
    SameLock(s, r);
    SameBest(s, r);
    assert forall w :: 0 <= w < WORKERS ==> WorkerDataOk(r, w) == WorkerDataOk(s, w);
    assert OutputOk(r) == OutputOk(s);
    hide OffsetsOk, LockOk, CountOk, WorkerDataOk, BestOk, OutputOk, ValueOk;
  }

  lemma CounterKeepsCount(s: State)
    requires CountOk(s)
    ensures CountOk(CounterStep(s))
  {
  }

  lemma SameOffsets(s: State, r: State)
    requires Shaped(s) && Shaped(r) && OffsetsOk(s)
    requires r.offsets == s.offsets && r.workers == s.workers && r.reported == s.reported
    requires OfferedBy(r.master) == OfferedBy(s.master)
    ensures OffsetsOk(r)
  {
    assert forall f: nat :: Places(r, f) == Places(s, f);
    hide Places, Holding;
  }

  lemma SameLock(s: State, r: State)
    requires Shaped(s) && Shaped(r) && LockOk(s)
    requires r.lock == s.lock && r.workers == s.workers && GaveLock(r.master) == GaveLock(s.master)
    ensures LockOk(r)
  {
  }

  lemma SameBest(s: State, r: State)
    requires Shaped(s) && Shaped(r) && BestOk(s)
    requires r.a == s.a && r.b == s.b && r.workers == s.workers && r.reported == s.reported && r.master == s.master
    requires Globals(r) == Globals(s)
    ensures BestOk(r)
  {
    hide BestOf, SectionOk, InSections;
  }

  // ----- The master -----

  lemma StartingKeepsData(s: State, w: nat)
    requires Shaped(s) && MasterOk(s.master) && s.master.Starting? && w < WORKERS && WorkerDataOk(s, w)
    ensures WorkerDataOk(MasterStep(s), w)
  {
    hide Item;
  }

  lemma SendingKeepsData(s: State, w: nat)
    requires Shaped(s) && MasterOk(s.master) && s.master.Sending? && w < WORKERS && WorkerDataOk(s, w)
    ensures WorkerDataOk(MasterStep(s), w)
  {
    var t, idx, k := MasterStep(s), s.master.idx, s.master.k;
    if idx < ORDER && k / 2 == w && k < 2 * WORKERS {
      var item := if k % 2 == 0 then s.a[idx] else s.b[idx];
      assert SentBy(s.master, w) == 2 * idx + k % 2 && item == Item(s.a, s.b, 2 * idx + k % 2);
      hide Item;
      assert t.data[w] == s.data[w] + [item];
    } else {
      hide Item;
      assert t.data[w] == s.data[w] && SentBy(t.master, w) == SentBy(s.master, w);
    }
  }

  lemma MasterKeepsData(s: State, w: nat)
    requires Shaped(s) && MasterOk(s.master) && w < WORKERS && WorkerDataOk(s, w)
    ensures WorkerDataOk(MasterStep(s), w)
  {
    if s.master.Starting? {
      StartingKeepsData(s, w);
    } else if s.master.Sending? {
      SendingKeepsData(s, w);
    } else {
      hide Item;
    }
  }

  lemma MasterKeepsOffsets(s: State)
    requires Shaped(s) && MasterOk(s.master) && OffsetsOk(s)
    ensures OffsetsOk(MasterStep(s))
  {
    if s.master.Offering? && s.master.idx < ORDER {
      OfferKeepsOffsets(s);
    } else {
      MasterFrame(s);
      hide MasterStep, OffsetsOk;
      SameOffsets(s, MasterStep(s));
    }
  }

  lemma OfferKeepsOffsets(s: State)
    requires Shaped(s) && s.master.Offering? && s.master.idx < ORDER && OffsetsOk(s)
    ensures OffsetsOk(MasterStep(s))
  {
    var r := MasterStep(s);
    forall f: nat ensures Places(r, f) == if f < OfferedBy(r.master) then 1 else 0 {
      PushN(s.offsets, s.master.idx, f);
      hide N, HoldingOf;
      assert Places(s, f) == if f < OfferedBy(s.master) then 1 else 0;
    }
    hide Holding, Places;
  }

  lemma MasterFrame(s: State)
    requires Shaped(s) && MasterOk(s.master) && !(s.master.Offering? && s.master.idx < ORDER)
    ensures var r := MasterStep(s);
      r.offsets == s.offsets && r.workers == s.workers && r.reported == s.reported
      && OfferedBy(r.master) == OfferedBy(s.master)
  {
  }

  lemma NoSectionBeforeLock(s: State)
    requires Shaped(s) && LockOk(s) && !GaveLock(s.master)
    ensures InSections(s.workers) == 0
    ensures forall w :: 0 <= w < WORKERS ==> !InSection(s.workers[w].phase)
  {
    forall w | 0 <= w < WORKERS ensures !InSection(s.workers[w].phase) {
      OneOf(s.workers, w);
    }
  }

  lemma MasterKeepsBest(s: State)
    requires Shaped(s) && LockOk(s) && OffsetsOk(s) && BestOk(s)
    ensures BestOk(MasterStep(s))
  {
    var r := MasterStep(s);
    assert OfferedBy(s.master) == 0 ==> s.reported == [];
    if !GaveLock(s.master) {
      NoSectionBeforeLock(s);
    }
    hide OffsetsOk, LockOk, SectionOk, InSections;
  }

  /** After all_done the shared variables are final, though a worker may still have to give the lock back. */
  lemma GlobalsAreBest(s: State)
    requires Inv(s) && IsDone(s.master)
    ensures Globals(s) == BestOf(s.a, s.b, s.reported)
  {
    AllReported(s);
    hide OffsetsOk, LockOk, CountOk, OutputOk, WorkerDataOk, ValueOk, BestOf, Globals;
    if InSections(s.workers) > 0 {
      var w :| 0 <= w < WORKERS && InSection(s.workers[w].phase);
      OneOf(s.workers, w);
    }
  }

  lemma MasterKeepsOutput(s: State)
    requires Inv(s)
    ensures OutputOk(MasterStep(s))
  {
    hide OffsetsOk, LockOk, CountOk, WorkerDataOk, ValueOk, BestOf, BestOk;
    if IsDone(s.master) {
      GlobalsAreBest(s);
    }
  }

  lemma MasterKeepsInv(s: State)
    requires Inv(s)
    ensures Inv(MasterStep(s))
  {
    hide OffsetsOk, LockOk, CountOk, WorkerDataOk, BestOk, OutputOk, ValueOk;
    var r := MasterStep(s);
    MasterKeepsOutput(s);
    MasterKeepsBest(s);
    MasterKeepsOffsets(s);
    MasterKeepsRest(s);
    assert r.a == s.a && r.b == s.b && r.workers == s.workers;
    hide MasterStep;
    forall w | 0 <= w < WORKERS ensures WorkerDataOk(r, w) {
      MasterKeepsData(s, w);
    }
  }

  lemma MasterKeepsRest(s: State)
    requires Shaped(s) && MasterOk(s.master) && LockOk(s) && CountOk(s)
    ensures MasterOk(MasterStep(s).master) && LockOk(MasterStep(s)) && CountOk(MasterStep(s))
  {
    hide InSections;
  }

  // ----- The workers -----

  lemma WorkerFrame(s: State, w: nat)
    requires Shaped(s) && w < WORKERS
    ensures var r := WorkerStep(s, w);
      && Shaped(r) && r.workers == s.workers[w := r.workers[w]]
      && r.a == s.a && r.b == s.b && r.master == s.master && r.counter == s.counter && r.allDone == s.allDone
      && r.values == s.values && r.places == s.places
      && (forall v :: 0 <= v < WORKERS && v != w ==> r.start[v] == s.start[v] && r.data[v] == s.data[v])
  {
    hide Correlation;
  }

  lemma WorkerKeepsData(s: State, w: nat, v: nat)
    requires Shaped(s) && w < WORKERS && v < WORKERS && MasterOk(s.master) && WorkerDataOk(s, v)
    ensures WorkerDataOk(WorkerStep(s, w), v)
  {
    if v != w {
      WorkerFrame(s, w);
      hide DataOk, WorkerStep;
    } else if s.workers[w].phase == Receiving {
      ReceiverKeepsData(s, w);
    } else {
      hide Item, SentBy, Correlation;
    }
  }

  lemma ReceiverKeepsData(s: State, w: nat)
    requires Shaped(s) && w < WORKERS && MasterOk(s.master) && WorkerDataOk(s, w) && s.workers[w].phase == Receiving
    ensures WorkerDataOk(WorkerStep(s, w), w)
  {
    SentAtMost(s.master, w);
    hide SentBy, StartedBy;
  }

  lemma SentAtMost(m: Master, w: nat)
    requires MasterOk(m)
    ensures SentBy(m, w) <= 2 * ORDER
  {
  }

  lemma LockMoves(s: State, w: nat)
    requires Shaped(s) && w < WORKERS
    ensures var r := WorkerStep(s, w); r.lock + Section1(r.workers[w]) == s.lock + Section1(s.workers[w])
  {
    hide Correlation;
  }

  lemma WorkerKeepsLock(s: State, w: nat)
    requires Shaped(s) && w < WORKERS && LockOk(s)
    ensures Shaped(WorkerStep(s, w)) && LockOk(WorkerStep(s, w))
  {
    WorkerFrame(s, w);
    LockMoves(s, w);
    SetWorker(s.workers, w, WorkerStep(s, w).workers[w]);
    hide WorkerStep, InSections, Section1;
  }

  lemma OffsetTaken(s: State, w: nat, f: nat)
    requires Shaped(s) && w < WORKERS && s.workers[w].phase == AwaitOffset && s.offsets != []
    ensures var r := WorkerStep(s, w);
      && r.reported == s.reported && HoldsN(s.workers[w], f) == 0
      && N(r.offsets, f) + HoldsN(r.workers[w], f) == N(s.offsets, f)
  {
    PopN(s.offsets, f);
    PushN([], s.offsets[0], f);
    hide N;
  }

  lemma OffsetReported(s: State, w: nat, f: nat)
    requires Shaped(s) && w < WORKERS && s.workers[w].phase == Reporting
    ensures var r := WorkerStep(s, w);
      && r.offsets == s.offsets && HoldsN(r.workers[w], f) == 0
      && N(r.reported, f) == N(s.reported, f) + HoldsN(s.workers[w], f)
  {
    PushN(s.reported, s.workers[w].offset, f);
    hide N;
  }

  lemma OffsetKept(s: State, w: nat, f: nat)
    requires Shaped(s) && w < WORKERS && s.workers[w].phase != Reporting
    requires s.workers[w].phase != AwaitOffset || s.offsets == []
    ensures var r := WorkerStep(s, w);
      r.offsets == s.offsets && r.reported == s.reported && HoldsN(r.workers[w], f) == HoldsN(s.workers[w], f)
  {
    hide Correlation;
  }

  lemma OffsetMoves(s: State, w: nat, f: nat)
    requires Shaped(s) && w < WORKERS
    ensures var r := WorkerStep(s, w);
      N(r.offsets, f) + HoldsN(r.workers[w], f) + N(r.reported, f)
      == N(s.offsets, f) + HoldsN(s.workers[w], f) + N(s.reported, f)
  {
    WorkerFrame(s, w);
    hide N, WorkerStep, HoldsN;
    if s.workers[w].phase == Reporting {
      OffsetReported(s, w, f);
    } else if s.workers[w].phase == AwaitOffset && s.offsets != [] {
      OffsetTaken(s, w, f);
    } else {
      OffsetKept(s, w, f);
    }
  }

  lemma WorkerKeepsPlaces(s: State, w: nat, f: nat)
    requires Shaped(s) && w < WORKERS
    ensures Shaped(WorkerStep(s, w)) && Places(WorkerStep(s, w), f) == Places(s, f)
  {
    WorkerFrame(s, w);
    OffsetMoves(s, w, f);
    SetWorkerOf(s.workers, w, WorkerStep(s, w).workers[w], f);
    hide WorkerStep, HoldingOf, HoldsN, N;
  }

  lemma OffsetsMoved(s: State, w: nat)
    requires Shaped(s) && w < WORKERS
    ensures var r := WorkerStep(s, w);
      |r.offsets| + Holds1(r.workers[w]) + |r.reported| == |s.offsets| + Holds1(s.workers[w]) + |s.reported|
  {
    hide Correlation;
  }

  lemma WorkerKeepsOffsets(s: State, w: nat)
    requires Shaped(s) && w < WORKERS && OffsetsOk(s)
    ensures Shaped(WorkerStep(s, w)) && OffsetsOk(WorkerStep(s, w))
  {
    WorkerFrame(s, w);
    OffsetsMoved(s, w);
    SetWorker(s.workers, w, WorkerStep(s, w).workers[w]);
    forall f: nat ensures Places(WorkerStep(s, w), f) == Places(s, f) {
      WorkerKeepsPlaces(s, w, f);
    }
    hide WorkerStep, Places, Holding, Holds1, InSections;
  }

  lemma WorkerKeepsCount(s: State, w: nat)
    requires Shaped(s) && w < WORKERS && CountOk(s)
    ensures CountOk(WorkerStep(s, w))
  {
    hide Correlation;
  }

  /** A worker that has left its receiving loop has the data. */
  lemma ReceivedAll(s: State, w: nat)
    requires Shaped(s) && w < WORKERS && WorkerDataOk(s, w)
    requires s.workers[w].phase != AwaitStart && s.workers[w].phase != Receiving
    ensures s.workers[w].a == s.a && s.workers[w].b == s.b
  {
    hide Item, SentBy;
    assert s.a[..ORDER] == s.a && s.b[..ORDER] == s.b;
  }

  lemma WorkerKeepsValue(s: State, w: nat)
    requires Shaped(s) && w < WORKERS && WorkerDataOk(s, w) && ValueOk(s.a, s.b, s.workers[w])
    ensures ValueOk(s.a, s.b, WorkerStep(s, w).workers[w])
  {
    if s.workers[w].phase == Correlating {
      ReceivedAll(s, w);
    }
    hide Correlation, WorkerDataOk;
  }

  lemma WorkerKeepsOutput(s: State, w: nat)
    requires Shaped(s) && w < WORKERS && OutputOk(s) && (IsDone(s.master) ==> Holding(s.workers) == 0)
    ensures OutputOk(WorkerStep(s, w))
  {
    OneOf(s.workers, w);
    hide Correlation, BestOf, Holding;
  }

  /** A worker in its critical section is the only one there. */
  lemma AloneInSection(s: State, w: nat)
    requires Shaped(s) && w < WORKERS && LockOk(s) && InSection(s.workers[w].phase)
    ensures GaveLock(s.master) && s.lock == 0 && InSections(s.workers) == 1
    ensures forall v :: 0 <= v < WORKERS && v != w ==> !InSection(s.workers[v].phase)
  {
    OneOf(s.workers, w);
    forall v | 0 <= v < WORKERS && v != w ensures !InSection(s.workers[v].phase) {
      TwoOf(s.workers, v, w);
    }
    hide InSections;
  }

  lemma BestOfOneMore(a: seq<real>, b: seq<real>, q: seq<nat>, f: nat)
    ensures BestOf(a, b, q + [f]) ==
            var best, v := BestOf(a, b, q), Correlation(a, b, f);
            if best.value < v then Best(v, f, best.jobs + 1) else best
  {
    hide Correlation;
    assert (q + [f])[..|q|] == q;
  }

  /** Inside its critical section a worker moves the shared variables as the specification says. */
  lemma SectionMoves(s: State, w: nat)
    requires Shaped(s) && w < WORKERS && InSection(s.workers[w].phase) && ValueOk(s.a, s.b, s.workers[w])
    requires SectionOk(Globals(s), BestOf(s.a, s.b, s.reported), s.workers[w])
    ensures var r := WorkerStep(s, w);
      SectionOk(Globals(r), BestOf(s.a, s.b, r.reported), r.workers[w])
      && (!InSection(r.workers[w].phase) ==> Globals(r) == BestOf(s.a, s.b, r.reported))
  {
    hide BestOf, Correlation;
    if s.workers[w].phase == Reporting {
      BestOfOneMore(s.a, s.b, s.reported, s.workers[w].offset);
    }
  }

  lemma BestFromSection(r: State, w: nat)
    requires Shaped(r) && w < WORKERS && GaveLock(r.master)
    requires forall v :: 0 <= v < WORKERS && v != w ==> !InSection(r.workers[v].phase)
    requires SectionOk(Globals(r), BestOf(r.a, r.b, r.reported), r.workers[w])
    requires !InSection(r.workers[w].phase) ==> Globals(r) == BestOf(r.a, r.b, r.reported)
    ensures BestOk(r)
  {
    OneOf(r.workers, w);
    hide InSections, BestOf, SectionOk, Globals;
  }

  lemma InsideKeepsBest(s: State, w: nat)
    requires Shaped(s) && w < WORKERS && LockOk(s) && BestOk(s) && InSection(s.workers[w].phase)
    requires ValueOk(s.a, s.b, s.workers[w])
    ensures Shaped(WorkerStep(s, w)) && BestOk(WorkerStep(s, w))
  {
    hide InSections, BestOf, LockOk, SectionOk, WorkerStep, Globals, ValueOk;
    AloneInSection(s, w);
    WorkerFrame(s, w);
    assert SectionOk(Globals(s), BestOf(s.a, s.b, s.reported), s.workers[w]);
    hide BestOk;
    SectionMoves(s, w);
    BestFromSection(WorkerStep(s, w), w);
  }

  /** Outside it leaves them alone, and enters only when no other worker is inside. */
  lemma OutsideMoves(s: State, w: nat)
    requires Shaped(s) && w < WORKERS && LockOk(s) && !InSection(s.workers[w].phase)
    ensures var r := WorkerStep(s, w);
      && Globals(r) == Globals(s) && r.reported == s.reported
      && (InSection(r.workers[w].phase) ==> r.workers[w].phase == Comparing && InSections(s.workers) == 0)
  {
    hide Correlation, InSections;
  }

  lemma OutsideKeepsBest(s: State, w: nat)
    requires Shaped(s) && w < WORKERS && LockOk(s) && BestOk(s) && !InSection(s.workers[w].phase)
    ensures Shaped(WorkerStep(s, w)) && BestOk(WorkerStep(s, w))
  {
    WorkerFrame(s, w);
    OutsideMoves(s, w);
    var r := WorkerStep(s, w);
    SetWorker(s.workers, w, r.workers[w]);
    hide InSections, BestOf, LockOk, WorkerStep, Globals;
  }

  lemma WorkerKeepsInv(s: State, w: nat)
    requires Inv(s) && w < WORKERS
    ensures Inv(WorkerStep(s, w))
  {
    hide OffsetsOk, LockOk, CountOk, WorkerDataOk, BestOk, OutputOk, ValueOk, WorkerStep;
    var r := WorkerStep(s, w);
    WorkerFrame(s, w);
    WorkerKeepsLock(s, w);
    WorkerKeepsOffsets(s, w);
    WorkerKeepsCount(s, w);
    if InSection(s.workers[w].phase) {
      InsideKeepsBest(s, w);
    } else {
      OutsideKeepsBest(s, w);
    }
    if IsDone(s.master) {
      AllReported(s);
    }
    WorkerKeepsOutput(s, w);
    forall v | 0 <= v < WORKERS ensures WorkerDataOk(r, v) && ValueOk(r.a, r.b, r.workers[v]) {
      WorkerKeepsData(s, w, v);
      if v == w {
        WorkerKeepsValue(s, w);
      }
    }
  }
}
