/** The correlator's threads as imperative code on the shared variables, the pipes and their own locals. */
module CorrelatorProgram {
  import opened Correlator
  import opened CorrelatorProof
  import opened CorrelatorTheorems
  import opened CorrelatorTermination

  class Program {
    // What data_in carries.
    const a: seq<real>
    const b: seq<real>
    // The pipes.
    var start: seq<nat>
    var data: seq<seq<real>>
    var lock: nat
    var offsets: seq<nat>
    var reports: nat
    var allDone: nat
    // global_best_result_value, global_best_result_offset, global_job_counter.
    var bestValue: real
    var bestOffset: nat
    var jobs: nat
    // Where each thread is.
    var master: Master
    var workers: seq<Worker>
    var counter: Counter
    ghost var reported: seq<nat>
    // What has been written to best_correlation and best_offset.
    var values: seq<real>
    var places: seq<nat>

    ghost function View(): State
      reads this
    {
      State(a, b, start, data, lock, offsets, reports, allDone, bestValue, bestOffset, jobs,
            master, workers, counter, reported, values, places)
    }

    ghost predicate Valid()
      reads this
    {
      Inv(View())
    }

    constructor (s: Start)
      requires s.Valid()
      ensures Valid() && View() == InitialState(s.a, s.b, s.value, s.offset, s.jobs)
    {
      a, b := s.a, s.b;
      start, data, lock, offsets, reports, allDone := [0, 0, 0, 0], [[], [], [], []], 0, [], 0, 0;
      bestValue, bestOffset, jobs := s.value, s.offset, s.jobs;
      master, workers, counter := Starting(0), [IDLE, IDLE, IDLE, IDLE], Counting(0);
      reported, values, places := [], [], [];
      new;
      InitialInv(s);
    }

    /** The loop that sends the data to all workers. */
    method SendData()
      requires Shaped(View()) && master.Sending?
      modifies this`data, this`master
      ensures View() == MasterStep(old(View()))
    {
      var idx, k := master.idx, master.k;
      if idx >= ORDER {
        master := ResettingCounter;
      } else if k >= 2 * WORKERS {
        master := Sending(idx + 1, 0);
      } else {
        var item := if k % 2 == 0 then a[idx] else b[idx];
        data, master := data[k / 2 := data[k / 2] + [item]], Sending(idx, k + 1);
      }
    }

    method MasterThread()
      requires Shaped(View())
      modifies this
      ensures View() == MasterStep(old(View()))
    {
      match master {
        case Starting(i) =>
          if i < WORKERS {
            start, master := start[i := start[i] + 1], Starting(i + 1);
          } else {
            master := Sending(0, 0);
          }
        case Sending(idx, k) =>
          hide MasterStep;
          SendData();
        case ResettingCounter => jobs, master := 0, ResettingValue;
        case ResettingValue => bestValue, master := WORST, ResettingOffset;
        case ResettingOffset => bestOffset, master := 0, GivingLock;
        case GivingLock => lock, master := lock + 1, Offering(0);
        case Offering(idx) =>
          if idx < ORDER {
            offsets, master := offsets + [idx], Offering(idx + 1);
          } else {
            master := AwaitDone;
          }
        case AwaitDone =>
          if allDone > 0 {
            allDone, master := allDone - 1, WritingValue;
          }
        case WritingValue => values, master := values + [bestValue], WritingOffset;
        case WritingOffset => places, master := places + [bestOffset], Finished;
        case Finished =>
      }
    }

    method WorkerThread(w: nat)
      requires Shaped(View()) && w < WORKERS && WorkerDataOk(View(), w)
      modifies this
      ensures View() == WorkerStep(old(View()), w)
    {
      if InSection(workers[w].phase) {
        CriticalSection(w);
      } else {
        OutsideSection(w);
      }
    }

    method OutsideSection(w: nat)
      requires Shaped(View()) && w < WORKERS && !InSection(workers[w].phase) && WorkerDataOk(View(), w)
      modifies this`start, this`data, this`offsets, this`lock, this`workers
      ensures View() == WorkerStep(old(View()), w)
    {
      hide DataOk, Correlation;
      var me := workers[w];
      match me.phase {
        case AwaitStart =>
          if start[w] > 0 {
            start, workers := start[w := start[w] - 1], workers[w := me.(phase := Receiving, a := [], b := [])];
          }
        case Receiving =>
          if |me.b| >= ORDER {
            workers := workers[w := me.(phase := AwaitOffset)];
          } else if data[w] != [] {
            var x := data[w][0];
            data := data[w := data[w][1..]];
            workers := workers[w := if |me.a| == |me.b| then me.(a := me.a + [x]) else me.(b := me.b + [x])];
          }
        case AwaitOffset =>
          if offsets != [] {
            offsets, workers := offsets[1..], workers[w := me.(phase := Correlating, offset := offsets[0])];
          }
        case Correlating =>
          ReceivedAll(View(), w);
          var retVal := Correlate(me.a, me.b, me.offset);
          workers := workers[w := me.(phase := AwaitLock, value := retVal)];
        case AwaitLock =>
          if lock > 0 {
            lock, workers := lock - 1, workers[w := me.(phase := Comparing)];
          }
        case _ =>
      }
    }

    method CriticalSection(w: nat)
      requires Shaped(View()) && w < WORKERS && InSection(workers[w].phase)
      modifies this`bestValue, this`bestOffset, this`jobs, this`reports, this`reported, this`lock, this`workers
      ensures View() == WorkerStep(old(View()), w)
    {
      var me := workers[w];
      match me.phase {
        case Comparing =>
          workers := workers[w := me.(phase := if bestValue < me.value then StoringValue else Reporting)];
        case StoringValue => bestValue, workers := me.value, workers[w := me.(phase := StoringOffset)];
        case StoringOffset => bestOffset, workers := me.offset, workers[w := me.(phase := CountingJob)];
        case CountingJob => jobs, workers := jobs + 1, workers[w := me.(phase := Reporting)];
        case Reporting =>
          reports, workers := reports + 1, workers[w := me.(phase := Unlocking)];
          reported := reported + [me.offset];
        case Unlocking => lock, workers := lock + 1, workers[w := me.(phase := AwaitOffset)];
        case _ =>
      }
    }

    method ResultCounter()
      modifies this`reports, this`allDone, this`counter
      ensures View() == CounterStep(old(View()))
    {
      match counter {
        case Counting(idx) =>
          if idx >= ORDER {
            counter := Announcing;
          } else if reports > 0 {
            reports, counter := reports - 1, Counting(idx + 1);
          }
        case Announcing => allDone, counter := allDone + 1, Counting(0);
      }
    }

    method ThreadStep(t: Agent)
      requires Valid()
      modifies this
      ensures Valid() && View() == AgentStep(old(View()), t)
    {
      AgentKeepsInv(View(), t);
      assert Shaped(View()) && forall w :: 0 <= w < WORKERS ==> WorkerDataOk(View(), w);
      hide Inv, WorkerDataOk, MasterStep, WorkerStep, CounterStep;
      match t {
        case TheMaster => MasterThread();
        case TheWorker(w) => if w < WORKERS { WorkerThread(w); }
        case TheCounter => ResultCounter();
      }
    }

    /** The threads run in any order. */
    method Run(schedule: seq<Agent>)
      requires Valid()
      modifies this
      ensures Valid() && View() == Reached(old(View()), schedule)
    {
      assert Shaped(View());
      hide Inv, AgentStep;
      ghost var s0 := View();
      for n := 0 to |schedule|
        invariant Valid() && View() == Reached(s0, schedule[..n])
      {
        assert schedule[..n + 1][..n] == schedule[..n];
        ThreadStep(schedule[n]);
      }
      assert schedule[..|schedule|] == schedule;
    }
  }

  /** A run of the threads that has written its results has written the best correlation and an offset that has it; and
      any run that changes the state 516 times has. */
  method RunCorrelator(s: Start, schedule: seq<Agent>) returns (values: seq<real>, places: seq<nat>)
    requires s.Valid()
    ensures |places| <= |values| <= 1
    ensures places != [] ==> IsBest(s.a, s.b, values[0], places[0])
    ensures places == [] ==> Changes(s, schedule) < 516
  {
    var program := new Program(s);
    program.Run(schedule);
    values, places := program.values, program.places;
    assert StateAfter(s, schedule) == program.View();
    ResultsOf(s, schedule);
  }

  lemma ResultsOf(s: Start, schedule: seq<Agent>)
    requires s.Valid()
    ensures var r := StateAfter(s, schedule); |r.places| <= |r.values| <= 1
    ensures var r := StateAfter(s, schedule); if r.places != [] then IsBest(s.a, s.b, r.values[0], r.places[0])
                                              else Changes(s, schedule) < 516
  {
    InvOfRun(s, schedule);
    ChangesBounded(s, schedule);
    var r := StateAfter(s, schedule);
    OutputsOf(r);
    hide StateAfter, Inv, Changes, IsBest;
    if r.places != [] {
      BestIsMaximum(s, schedule);
    }
  }

  lemma OutputsOf(r: State)
    requires Inv(r)
    ensures |r.places| <= |r.values| <= 1 && (r.places != [] <==> r.master.Finished?)
    ensures !r.master.Finished? ==> Remaining(r) > 0
  {
    hide BestOf, WorkersRest, CounterRest;
  }
}
