/** The main results on the ring of handshakes, for every order in which its agents take their steps. */
module HandshakeTheorems {
  import opened Handshake

  // ----- When a run goes well -----

  /** In no step of the run is a request raised before its responder is ready for it. */
  predicate Orderly(s: State, schedule: seq<Agent>)
    decreases |schedule|
  {
    schedule == [] || (!TooEarly(s, schedule[0]) && Orderly(AgentStep(s, schedule[0]), schedule[1..]))
  }

  lemma {:induction false} StaysInStep(s: State, schedule: seq<Agent>)
    requires InStep(s) && Orderly(s, schedule)
    ensures InStep(Reached(s, schedule))
    decreases |schedule|
  {
    hide InStep, TooEarly, AgentStep;
    if schedule != [] {
      AgentKeepsStep(s, schedule[0]);
      StaysInStep(AgentStep(s, schedule[0]), schedule[1..]);
    }
  }

  lemma {:induction false} StaysMissed(s: State, schedule: seq<Agent>)
    requires Missed(s)
    ensures EnvMissed(s) ==> EnvMissed(Reached(s, schedule))
    ensures RxMissed(s) ==> RxMissed(Reached(s, schedule))
    decreases |schedule|
  {
    hide EnvMissed, RxMissed, AgentStep;
    if schedule != [] {
      if EnvMissed(s) { EnvMissedStays(s, schedule[0]); }
      if RxMissed(s) { RxMissedStays(s, schedule[0]); }
      StaysMissed(AgentStep(s, schedule[0]), schedule[1..]);
    }
  }

  lemma {:induction false} BecomesMissed(s: State, schedule: seq<Agent>)
    requires InStep(s) && !Orderly(s, schedule)
    ensures Missed(Reached(s, schedule))
    decreases |schedule|
  {
    hide InStep, TooEarly, AgentStep, EnvMissed, RxMissed;
    if TooEarly(s, schedule[0]) {
      TooEarlyIsMissed(s, schedule[0]);
      StaysMissed(AgentStep(s, schedule[0]), schedule[1..]);
    } else {
      AgentKeepsStep(s, schedule[0]);
      BecomesMissed(AgentStep(s, schedule[0]), schedule[1..]);
    }
  }

  lemma NotBoth(s: State)
    requires InStep(s)
    ensures !Missed(s)
  {
  }

  /** From any levels at the start, a run is orderly exactly when it has not missed a request; then all links are in
      their four-phase order. */
  lemma InStepIffOrderly(s: State, schedule: seq<Agent>)
    requires Initial(s)
    ensures InStep(Reached(s, schedule)) <==> Orderly(s, schedule)
    ensures Missed(Reached(s, schedule)) <==> !Orderly(s, schedule)
  {
    InitiallyInStep(s);
    hide InStep, Missed;
    if Orderly(s, schedule) {
      StaysInStep(s, schedule);
    } else {
      BecomesMissed(s, schedule);
    }
    if InStep(Reached(s, schedule)) {
      NotBoth(Reached(s, schedule));
    }
  }

  /** No request is lost or duplicated: each transfer follows the one before it on the ring, and Env starts the next
      round only when the last has come back. */
  lemma TransfersInOrder(s: State, schedule: seq<Agent>)
    requires Initial(s) && Orderly(s, schedule)
    ensures var r := Reached(s, schedule);
      EnvToRx(r) >= RxToTx(r) >= TxToEnv(r) >= EnvToRx(r) - 1
  {
    InStepIffOrderly(s, schedule);
    InOrderTransfers(Reached(s, schedule));
    hide *;
  }

  lemma InOrderTransfers(s: State)
    requires InStep(s)
    ensures EnvToRx(s) >= RxToTx(s) >= TxToEnv(s) >= EnvToRx(s) - 1
  {
  }

  // ----- Nobody waits for ever, if the run is orderly -----

  predicate AllRunning(s: State) {
    s.env.EnvRunning? && s.rx.RxRunning? && s.tx.TxRunning?
  }

  lemma SomeoneCanGo(s: State)
    requires InStep(s) && AllRunning(s)
    ensures EnvCanGo(s, s.env.k) || RxCanGo(s, s.rx.k) || TxCanGo(s, s.tx.k)
  {
  }

  /** Once all have left their start-up, the next event of some agent is possible, and in order. */
  lemma SomeoneAdvances(s: State) returns (a: Agent)
    requires InStep(s) && AllRunning(s)
    ensures AllRunning(AgentStep(s, a)) && Events(AgentStep(s, a)) == Events(s) + 1 && !TooEarly(s, a)
  {
    SomeoneCanGo(s);
    hide InStep, EnvCanGo, RxCanGo, TxCanGo;
    if EnvCanGo(s, s.env.k) {
      a := Env;
    } else if RxCanGo(s, s.rx.k) {
      a := Rx;
    } else {
      a := Tx;
    }
    PlacesInRange(s);
  }

  lemma PlacesInRange(s: State)
    requires InStep(s) && AllRunning(s)
    ensures s.env.k < 8 && s.rx.k < 8 && s.tx.k < 8
  {
  }

  /** All events of the three loops so far. */
  function Events(s: State): nat
    requires AllRunning(s)
  {
    8 * (s.env.round + s.rx.round + s.tx.round) + s.env.k + s.rx.k + s.tx.k
  }

  /** How far an agent is from leaving its start-up, if it finds the signals low. */
  function EnvLeft(s: State): nat {
    match s.env
    case EnvClearReq => 5
    case EnvClearAck => 4
    case EnvReadAck => 2
    case EnvReadReq(ack) => if ack then 3 else 1
    case EnvRunning(_, _) => 0
  }

  function RxLeft(s: State): nat {
    match s.rx
    case RxClearAck => 5
    case RxClearReq => 4
    case RxReadAck => 2
    case RxReadReq(ack) => if ack then 3 else 1
    case RxRunning(_, _) => 0
  }

  function TxLeft(s: State): nat {
    match s.tx
    case TxClearAck => 5
    case TxClearReq => 4
    case TxReadReq => 2
    case TxReadAck(req) => if req then 3 else 1
    case TxRunning(_, _) => 0
  }

  function Left(s: State): nat {
    EnvLeft(s) + RxLeft(s) + TxLeft(s)
  }

  /** First whoever has not cleared its own signals, then whoever still reads those of the others. */
  lemma SomeoneStarts(s: State) returns (a: Agent)
    requires InStep(s) && !AllRunning(s)
    ensures Left(AgentStep(s, a)) < Left(s) && !TooEarly(s, a)
  {
    if EnvLeft(s) > 3 || (RxLeft(s) <= 3 && TxLeft(s) <= 3 && EnvLeft(s) > 0) {
      a := Env;
      EnvFrame(s);
      EnvStarts(s);
      hide EnvStep;
    } else if RxLeft(s) > 3 || (TxLeft(s) <= 3 && RxLeft(s) > 0) {
      a := Rx;
      RxFrame(s);
      RxStarts(s);
      hide RxStep;
    } else {
      a := Tx;
      TxFrame(s);
      TxStarts(s);
      hide TxStep;
    }
    hide InStep;
  }

  lemma EnvStarts(s: State)
    requires InStep(s) && !s.env.EnvRunning? && (EnvLeft(s) > 3 || (RxLeft(s) <= 3 && TxLeft(s) <= 3))
    ensures EnvLeft(EnvStep(s)) < EnvLeft(s)
  {
  }

  lemma RxStarts(s: State)
    requires InStep(s) && !s.rx.RxRunning? && EnvLeft(s) <= 3 && (RxLeft(s) > 3 || TxLeft(s) <= 3)
    ensures RxLeft(RxStep(s)) < RxLeft(s)
  {
  }

  lemma TxStarts(s: State)
    requires InStep(s) && !s.tx.TxRunning? && EnvLeft(s) <= 3 && RxLeft(s) <= 3
    ensures TxLeft(TxStep(s)) < TxLeft(s)
  {
  }

  lemma {:induction false} AllStart(s: State) returns (schedule: seq<Agent>)
    requires InStep(s)
    ensures Orderly(s, schedule) && AllRunning(Reached(s, schedule))
    decreases Left(s)
  {
    hide InStep, TooEarly, AgentStep, Left;
    if AllRunning(s) {
      schedule := [];
    } else {
      var a := SomeoneStarts(s);
      AgentKeepsStep(s, a);
      var rest := AllStart(AgentStep(s, a));
      schedule := [a] + rest;
      assert schedule[1..] == rest;
    }
  }

  lemma {:induction false} EventsFollow(s: State, n: nat) returns (schedule: seq<Agent>)
    requires InStep(s) && AllRunning(s)
    ensures Orderly(s, schedule) && AllRunning(Reached(s, schedule)) && Events(Reached(s, schedule)) >= n
    decreases n - Events(s)
  {
    hide InStep, TooEarly, AgentStep, Events;
    if Events(s) >= n {
      schedule := [];
    } else {
      var a := SomeoneAdvances(s);
      AgentKeepsStep(s, a);
      var rest := EventsFollow(AgentStep(s, a), n);
      schedule := [a] + rest;
      assert schedule[1..] == rest;
    }
  }

  lemma {:induction false} Continue(s: State, first: seq<Agent>, second: seq<Agent>)
    ensures Reached(s, first + second) == Reached(Reached(s, first), second)
    ensures Orderly(s, first) && Orderly(Reached(s, first), second) ==> Orderly(s, first + second)
    decreases |first|
  {
    hide AgentStep, TooEarly;
    if first == [] {
      assert first + second == second;
    } else {
      Continue(AgentStep(s, first[0]), first[1..], second);
      assert (first + second)[1..] == first[1..] + second;
    }
  }

  lemma RoundsFromEvents(s: State, n: nat)
    requires InStep(s) && AllRunning(s) && Events(s) >= 24 * (n + 2)
    ensures TxToEnv(s) >= n
  {
  }

  /** From wherever an orderly run has come, it can go on so that request number n comes back to Env. */
  lemma RequestsComeBack(s: State, schedule: seq<Agent>, n: nat) returns (more: seq<Agent>)
    requires Initial(s) && Orderly(s, schedule)
    ensures Orderly(s, schedule + more) && TxToEnv(Reached(s, schedule + more)) >= n
  {
    hide AgentStep, TooEarly, InStep, Orderly, Events;
    InStepIffOrderly(s, schedule);
    var r := Reached(s, schedule);
    var start := AllStart(r);
    StaysInStep(r, start);
    var q := Reached(r, start);
    var events := EventsFollow(q, 24 * (n + 2));
    StaysInStep(q, events);
    RoundsFromEvents(Reached(q, events), n);
    more := start + events;
    Continue(r, start, events);
    Continue(s, schedule, more);
  }

  // ----- A run that misses a request -----

  /** What comes of a missed request: one of the two transfers never completes. */
  lemma MissedForEver(s: State, schedule: seq<Agent>, more: seq<Agent>)
    requires Initial(s) && !Orderly(s, schedule)
    ensures var r := Reached(s, schedule + more); EnvToRx(r) == 0 || RxToTx(r) == 0
  {
    hide AgentStep, TooEarly, InStep, Orderly;
    InStepIffOrderly(s, schedule);
    Continue(s, schedule, more);
    StaysMissed(Reached(s, schedule), more);
  }

  /** Env can start the ring alone while all signals are low: Rx then waits in its start-up for the request to go. */
  lemma EnvCanBeTooEarly(s: State) returns (schedule: seq<Agent>)
    requires Initial(s) && !s.rxEnvAck && !s.txEnvReq
    ensures !Orderly(s, schedule)
  {
    hide Orderly;
    var s1 := EnvStep(s);
    var s2 := EnvStep(s1);
    var s3 := EnvStep(s2);
    var s4 := EnvStep(s3);
    assert s4.env == EnvRunning(0, 0) && TooEarly(s4, Env);
    hide EnvStep, TooEarly;
    OneLater(s4, Env, []);
    schedule := [Env] + [];
    NotBefore(s3, Env, schedule);
    schedule := [Env] + schedule;
    NotBefore(s2, Env, schedule);
    schedule := [Env] + schedule;
    NotBefore(s1, Env, schedule);
    schedule := [Env] + schedule;
    NotBefore(s, Env, schedule);
    schedule := [Env] + schedule;
  }

  lemma OneLater(s: State, a: Agent, rest: seq<Agent>)
    requires TooEarly(s, a)
    ensures !Orderly(s, [a] + rest)
  {
  }

  lemma NotBefore(s: State, a: Agent, rest: seq<Agent>)
    requires !Orderly(AgentStep(s, a), rest)
    ensures !Orderly(s, [a] + rest)
  {
    hide AgentStep;
    assert ([a] + rest)[1..] == rest;
  }
}
