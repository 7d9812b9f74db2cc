/** In an orderly run that is fair every request comes back: the start-up ends, and the ring turns. */
module HandshakeFairness {
  import opened Fairness
  import opened Handshake
  import opened HandshakeTheorems

  /** A step that would raise a request too early is not taken. */
  function OrderlyStep(s: State, a: Agent): State {
    if TooEarly(s, a) then s else AgentStep(s, a)
  }

  // ----- How far the ring is from its goal -----

  // The signals an agent has still to clear.
  function EnvClears(s: State): nat { if s.env.EnvClearReq? then 2 else if s.env.EnvClearAck? then 1 else 0 }
  function RxClears(s: State): nat { if s.rx.RxClearAck? then 2 else if s.rx.RxClearReq? then 1 else 0 }
  function TxClears(s: State): nat { if s.tx.TxClearAck? then 2 else if s.tx.TxClearReq? then 1 else 0 }

  function Clears(s: State): nat { EnvClears(s) + RxClears(s) + TxClears(s) }

  function EventsOf(p: Progress): nat { 8 * p.round + p.k }
  function AllEvents(s: State): nat { EventsOf(EnvAt(s)) + EventsOf(RxAt(s)) + EventsOf(TxAt(s)) }

  /** The events after which n requests have come back, whoever took the last of them. */
  function EventsFor(n: nat): nat { 24 * (n + 2) }

  /** Signals to clear, steps of the start-up and events still to come; while signals are uncleared what has been read
      of them does not count. */
  function RankOf(clears: nat, left: nat, events: nat, limit: nat): nat {
    (if clears > 0 then 20 * clears + 12 else left) + if events < limit then limit - events else 0
  }

  function Rank(s: State, n: nat): nat { RankOf(Clears(s), Left(s), AllEvents(s), EventsFor(n)) }

  function Helpful(s: State): Agent {
    if EnvClears(s) > 0 then Env else if RxClears(s) > 0 then Rx else if TxClears(s) > 0 then Tx
    else if !s.env.EnvRunning? then Env else if !s.rx.RxRunning? then Rx else if !s.tx.TxRunning? then Tx
    else if EnvCanGo(s, s.env.k) then Env else if RxCanGo(s, s.rx.k) then Rx else Tx
  }

  lemma NextInRound(a: nat, pending: bool, b: nat, p: nat, q: nat)
    requires InOrder(a, pending, b) && a <= 4 * p + 4 && 4 * q <= b
    ensures q <= p + 1
  {
  }

  /** Nobody gets ahead on the ring. */
  lemma RoundsTogether(s: State)
    requires InStep(s)
    ensures RxAt(s).round <= EnvAt(s).round + 1 && TxAt(s).round <= RxAt(s).round + 1
    ensures EnvAt(s).k < 8 && RxAt(s).k < 8 && TxAt(s).k < 8
  {
    hide InOrder;
    NextInRound(First(EnvAt(s)), FirstPending(EnvAt(s)), First(RxAt(s)), EnvAt(s).round, RxAt(s).round);
    NextInRound(Second(RxAt(s)), SecondPending(RxAt(s)), First(TxAt(s)), RxAt(s).round, TxAt(s).round);
  }

  /** With so many events the first n rounds are complete. */
  lemma ManyEvents(s: State, n: nat)
    requires InStep(s) && AllEvents(s) >= EventsFor(n)
    ensures TxToEnv(s) >= n
  {
    RoundsTogether(s);
    hide InStep, EnvAt, RxAt, TxAt;
  }

  // ----- One step of each agent -----

  /** An agent's part before and after its step: it clears a signal, or reads one in its start-up, or does an event of its
      loop, or waits. */
  predicate Moved(clears: nat, left: nat, events: nat, clears': nat, left': nat, events': nat) {
    if clears > 0 then clears' == clears - 1 && left' <= 5 && events' == events
    else clears' == 0 && left' <= 5 && (events' == events || (events' == events + 1 && left' == left))
  }

  lemma EnvLoops(s: State, round: nat, k: nat)
    requires s.env == EnvRunning(round, k) && k < 8
    ensures if EnvCanGo(s, k) then EnvStep(s).env == EnvNext(round, k) else EnvStep(s) == s
  {
    hide EnvCanGo, EnvNext;
  }

  lemma EnvNextEvent(s: State, round: nat, k: nat)
    requires s.env == EnvNext(round, k) && k < 8
    ensures s.env.EnvRunning? && EventsOf(EnvAt(s)) == EventsOf(At(round, k)) + 1
  {
  }

  lemma EnvStartsClearing(s: State)
    requires !s.env.EnvRunning?
    ensures EnvClears(EnvStep(s)) == (if EnvClears(s) > 0 then EnvClears(s) - 1 else 0) && EnvLeft(EnvStep(s)) <= 5
  {
    hide EnvLoop;
  }

  lemma EnvStartsAtNone(s: State)
    requires !s.env.EnvRunning?
    ensures EnvAt(EnvStep(s)) == EnvAt(s) == At(0, 0)
  {
    hide EnvLoop;
  }

  lemma EnvMoves(s: State)
    requires s.env.EnvRunning? ==> s.env.k < 8
    ensures var t := EnvStep(s);
      && t.rx == s.rx && t.tx == s.tx
      && Moved(EnvClears(s), EnvLeft(s), EventsOf(EnvAt(s)), EnvClears(t), EnvLeft(t), EventsOf(EnvAt(t)))
      && (s.env.EnvRunning? ==> if EnvCanGo(s, s.env.k) then EventsOf(EnvAt(t)) == EventsOf(EnvAt(s)) + 1 else t == s)
  {
    hide EnvStep, EnvNext, EnvCanGo, EventsOf;
    EnvFrame(s);
    if s.env.EnvRunning? {
      EnvLoops(s, s.env.round, s.env.k);
      if EnvCanGo(s, s.env.k) {
        EnvNextEvent(EnvStep(s), s.env.round, s.env.k);
      }
    } else {
      EnvStartsClearing(s);
      EnvStartsAtNone(s);
      hide EnvClears, EnvLeft, EnvAt;
    }
  }

  lemma RxLoops(s: State, round: nat, k: nat)
    requires s.rx == RxRunning(round, k) && k < 8
    ensures if RxCanGo(s, k) then RxStep(s).rx == RxNext(round, k) else RxStep(s) == s
  {
    hide RxCanGo, RxNext;
  }

  lemma RxNextEvent(s: State, round: nat, k: nat)
    requires s.rx == RxNext(round, k) && k < 8
    ensures s.rx.RxRunning? && EventsOf(RxAt(s)) == EventsOf(At(round, k)) + 1
  {
  }

  lemma RxStartsClearing(s: State)
    requires !s.rx.RxRunning?
    ensures RxClears(RxStep(s)) == (if RxClears(s) > 0 then RxClears(s) - 1 else 0) && RxLeft(RxStep(s)) <= 5
  {
    hide RxLoop;
  }

  lemma RxStartsAtNone(s: State)
    requires !s.rx.RxRunning?
    ensures RxAt(RxStep(s)) == RxAt(s) == At(0, 0)
  {
    hide RxLoop;
  }

  lemma RxMoves(s: State)
    requires s.rx.RxRunning? ==> s.rx.k < 8
    ensures var t := RxStep(s);
      && t.env == s.env && t.tx == s.tx
      && Moved(RxClears(s), RxLeft(s), EventsOf(RxAt(s)), RxClears(t), RxLeft(t), EventsOf(RxAt(t)))
      && (s.rx.RxRunning? ==> if RxCanGo(s, s.rx.k) then EventsOf(RxAt(t)) == EventsOf(RxAt(s)) + 1 else t == s)
  {
    hide RxStep, RxNext, RxCanGo, EventsOf;
    RxFrame(s);
    if s.rx.RxRunning? {
      RxLoops(s, s.rx.round, s.rx.k);
      if RxCanGo(s, s.rx.k) {
        RxNextEvent(RxStep(s), s.rx.round, s.rx.k);
      }
    } else {
      RxStartsClearing(s);
      RxStartsAtNone(s);
      hide RxClears, RxLeft, RxAt;
    }
  }

  lemma TxLoops(s: State, round: nat, k: nat)
    requires s.tx == TxRunning(round, k) && k < 8
    ensures if TxCanGo(s, k) then TxStep(s).tx == TxNext(round, k) else TxStep(s) == s
  {
    hide TxCanGo, TxNext;
  }

  lemma TxNextEvent(s: State, round: nat, k: nat)
    requires s.tx == TxNext(round, k) && k < 8
    ensures s.tx.TxRunning? && EventsOf(TxAt(s)) == EventsOf(At(round, k)) + 1
  {
  }

  lemma TxStartsClearing(s: State)
    requires !s.tx.TxRunning?
    ensures TxClears(TxStep(s)) == (if TxClears(s) > 0 then TxClears(s) - 1 else 0) && TxLeft(TxStep(s)) <= 5
  {
    hide TxLoop;
  }

  lemma TxStartsAtNone(s: State)
    requires !s.tx.TxRunning?
    ensures TxAt(TxStep(s)) == TxAt(s) == At(0, 0)
  {
    hide TxLoop;
  }

  lemma TxMoves(s: State)
    requires s.tx.TxRunning? ==> s.tx.k < 8
    ensures var t := TxStep(s);
      && t.env == s.env && t.rx == s.rx
      && Moved(TxClears(s), TxLeft(s), EventsOf(TxAt(s)), TxClears(t), TxLeft(t), EventsOf(TxAt(t)))
      && (s.tx.TxRunning? ==> if TxCanGo(s, s.tx.k) then EventsOf(TxAt(t)) == EventsOf(TxAt(s)) + 1 else t == s)
  {
    hide TxStep, TxNext, TxCanGo, EventsOf;
    TxFrame(s);
    if s.tx.TxRunning? {
      TxLoops(s, s.tx.round, s.tx.k);
      if TxCanGo(s, s.tx.k) {
        TxNextEvent(TxStep(s), s.tx.round, s.tx.k);
      }
    } else {
      TxStartsClearing(s);
      TxStartsAtNone(s);
      hide TxClears, TxLeft, TxAt;
    }
  }

  // ----- One step and the rank -----

  /** Nearer the goal, or as near and the same agent is still to help. */
  ghost predicate Helps(s: State, t: State, a: Agent, n: nat) {
    Rank(t, n) <= Rank(s, n) && (Rank(t, n) == Rank(s, n) ==> a != Helpful(s) && Helpful(t) == Helpful(s))
  }

  /** With nothing left to clear all that is read is low, so whoever is in its start-up gets on. */
  lemma AllLow(s: State)
    requires Clears(s) == 0
    ensures EnvLeft(s) <= 3 && RxLeft(s) <= 3 && TxLeft(s) <= 3
  {
  }

  lemma TooEarlyIsNoHelp(s: State, a: Agent)
    requires TooEarly(s, a)
    ensures a != Helpful(s)
  {
  }

  lemma EnvNotClear(s: State)
    ensures Clears(s) == 0 ==> EnvClears(s) == 0
  {
  }

  lemma EnvUnmoved(s: State, t: State)
    requires t.env == s.env
    ensures EnvClears(t) == EnvClears(s) && EnvLeft(t) == EnvLeft(s) && EnvAt(t) == EnvAt(s)
  {
  }

  lemma EnvWaits(s: State)
    requires InStep(s) && s.env.EnvRunning? && !EnvCanGo(s, s.env.k)
    ensures Env != Helpful(s)
  {
    if AllRunning(s) {
      SomeoneCanGo(s);
    }
    hide InStep, EnvCanGo, RxCanGo, TxCanGo;
  }

  lemma RxNotClear(s: State)
    ensures Clears(s) == 0 ==> RxClears(s) == 0
  {
  }

  lemma RxUnmoved(s: State, t: State)
    requires t.rx == s.rx
    ensures RxClears(t) == RxClears(s) && RxLeft(t) == RxLeft(s) && RxAt(t) == RxAt(s)
  {
  }

  lemma RxWaits(s: State)
    requires InStep(s) && s.rx.RxRunning? && !RxCanGo(s, s.rx.k)
    ensures Rx != Helpful(s)
  {
    if AllRunning(s) {
      SomeoneCanGo(s);
    }
    hide InStep, EnvCanGo, RxCanGo, TxCanGo;
  }

  lemma TxNotClear(s: State)
    ensures Clears(s) == 0 ==> TxClears(s) == 0
  {
  }

  lemma TxUnmoved(s: State, t: State)
    requires t.tx == s.tx
    ensures TxClears(t) == TxClears(s) && TxLeft(t) == TxLeft(s) && TxAt(t) == TxAt(s)
  {
  }

  lemma TxWaits(s: State)
    requires InStep(s) && s.tx.TxRunning? && !TxCanGo(s, s.tx.k)
    ensures Tx != Helpful(s)
  {
    if AllRunning(s) {
      SomeoneCanGo(s);
    }
    hide InStep, EnvCanGo, RxCanGo, TxCanGo;
  }

  lemma HelpfulClears(s: State, t: State)
    requires Clears(s) > 0 && EnvClears(t) == EnvClears(s) && RxClears(t) == RxClears(s) && TxClears(t) == TxClears(s)
    ensures Helpful(t) == Helpful(s)
    ensures Helpful(s) == Env ==> EnvClears(s) > 0
    ensures Helpful(s) == Rx ==> RxClears(s) > 0
    ensures Helpful(s) == Tx ==> TxClears(s) > 0
  {
    hide EnvClears, RxClears, TxClears;
  }

  /** One agent's part moves; clears, left and events are those of the other two. */
  lemma PartMoves(clears: nat, left: nat, events: nat, c: nat, l: nat, e: nat, c': nat, l': nat, e': nat, limit: nat)
    requires Moved(c, l, e, c', l', e') && l <= 5 && left <= 10 && events + e < limit
    ensures var before := RankOf(clears + c, left + l, events + e, limit);
            var after := RankOf(clears + c', left + l', events + e', limit);
      && (c > 0 || e' > e ==> after < before)
      && (c == 0 && e' == e && clears > 0 ==> after == before)
      && (c == 0 && e' == e && clears == 0 && l' < l ==> after < before)
  {
  }

  lemma LeftAtMost(s: State)
    ensures EnvLeft(s) <= 5 && RxLeft(s) <= 5 && TxLeft(s) <= 5
  {
  }

  lemma EnvParts(s: State, t: State, n: nat)
    requires t.rx == s.rx && t.tx == s.tx && AllEvents(s) < EventsFor(n)
    requires Moved(EnvClears(s), EnvLeft(s), EventsOf(EnvAt(s)), EnvClears(t), EnvLeft(t), EventsOf(EnvAt(t)))
    ensures EnvClears(s) > 0 || EventsOf(EnvAt(t)) > EventsOf(EnvAt(s)) ==> Rank(t, n) < Rank(s, n)
    ensures EnvClears(s) == 0 && EventsOf(EnvAt(t)) == EventsOf(EnvAt(s)) && Clears(s) > 0 ==>
              Rank(t, n) == Rank(s, n) && Env != Helpful(s) && Helpful(t) == Helpful(s)
    ensures Clears(s) == 0 && EventsOf(EnvAt(t)) == EventsOf(EnvAt(s)) && EnvLeft(t) < EnvLeft(s) ==> Rank(t, n) < Rank(s, n)
  {
    hide EnvClears, RxClears, TxClears, EnvLeft, RxLeft, TxLeft, EventsOf, EventsFor, EnvAt, RxAt, TxAt, RankOf, Helpful;
    RxUnmoved(s, t);
    TxUnmoved(s, t);
    LeftAtMost(s);
    if Clears(s) > 0 && EnvClears(s) == 0 && EventsOf(EnvAt(t)) == EventsOf(EnvAt(s)) {
      HelpfulClears(s, t);
    }
    PartMoves(RxClears(s) + TxClears(s), RxLeft(s) + TxLeft(s), EventsOf(RxAt(s)) + EventsOf(TxAt(s)),
              EnvClears(s), EnvLeft(s), EventsOf(EnvAt(s)), EnvClears(t), EnvLeft(t), EventsOf(EnvAt(t)), EventsFor(n));
    assert Clears(t) == RxClears(s) + TxClears(s) + EnvClears(t);
    assert Left(t) == RxLeft(s) + TxLeft(s) + EnvLeft(t);
    assert AllEvents(t) == EventsOf(RxAt(s)) + EventsOf(TxAt(s)) + EventsOf(EnvAt(t));
    assert Clears(s) == RxClears(s) + TxClears(s) + EnvClears(s);
    assert Left(s) == RxLeft(s) + TxLeft(s) + EnvLeft(s);
    assert AllEvents(s) == EventsOf(RxAt(s)) + EventsOf(TxAt(s)) + EventsOf(EnvAt(s));
  }

  lemma EnvHelps(s: State, n: nat)
    requires InStep(s) && AllEvents(s) < EventsFor(n) && (s.env.EnvRunning? ==> s.env.k < 8)
    ensures Helps(s, EnvStep(s), Env, n)
  {
    var t := EnvStep(s);
    hide InStep, EnvStep, EnvClears, RxClears, TxClears, EnvLeft, RxLeft, TxLeft, Left, EventsOf, EventsFor, EnvAt, RxAt, TxAt,
         EnvCanGo, RxCanGo, TxCanGo, Helpful, Rank, Clears, AllEvents;
    EnvMoves(s);
    EnvParts(s, t, n);
    if s.env.EnvRunning? {
      if !EnvCanGo(s, s.env.k) {
        EnvWaits(s);
      }
    } else if Clears(s) == 0 {
      AllLow(s);
      EnvStarts(s);
    } else {
      EnvNotClear(s);
    }
  }

  lemma RxParts(s: State, t: State, n: nat)
    requires t.env == s.env && t.tx == s.tx && AllEvents(s) < EventsFor(n)
    requires Moved(RxClears(s), RxLeft(s), EventsOf(RxAt(s)), RxClears(t), RxLeft(t), EventsOf(RxAt(t)))
    ensures RxClears(s) > 0 || EventsOf(RxAt(t)) > EventsOf(RxAt(s)) ==> Rank(t, n) < Rank(s, n)
    ensures RxClears(s) == 0 && EventsOf(RxAt(t)) == EventsOf(RxAt(s)) && Clears(s) > 0 ==>
              Rank(t, n) == Rank(s, n) && Rx != Helpful(s) && Helpful(t) == Helpful(s)
    ensures Clears(s) == 0 && EventsOf(RxAt(t)) == EventsOf(RxAt(s)) && RxLeft(t) < RxLeft(s) ==> Rank(t, n) < Rank(s, n)
  {
    hide EnvClears, RxClears, TxClears, EnvLeft, RxLeft, TxLeft, EventsOf, EventsFor, EnvAt, RxAt, TxAt, RankOf, Helpful;
    EnvUnmoved(s, t);
    TxUnmoved(s, t);
    LeftAtMost(s);
    if Clears(s) > 0 && RxClears(s) == 0 && EventsOf(RxAt(t)) == EventsOf(RxAt(s)) {
      HelpfulClears(s, t);
    }
    PartMoves(EnvClears(s) + TxClears(s), EnvLeft(s) + TxLeft(s), EventsOf(EnvAt(s)) + EventsOf(TxAt(s)),
              RxClears(s), RxLeft(s), EventsOf(RxAt(s)), RxClears(t), RxLeft(t), EventsOf(RxAt(t)), EventsFor(n));
    assert Clears(t) == EnvClears(s) + TxClears(s) + RxClears(t);
    assert Left(t) == EnvLeft(s) + TxLeft(s) + RxLeft(t);
    assert AllEvents(t) == EventsOf(EnvAt(s)) + EventsOf(TxAt(s)) + EventsOf(RxAt(t));
    assert Clears(s) == EnvClears(s) + TxClears(s) + RxClears(s);
    assert Left(s) == EnvLeft(s) + TxLeft(s) + RxLeft(s);
    assert AllEvents(s) == EventsOf(EnvAt(s)) + EventsOf(TxAt(s)) + EventsOf(RxAt(s));
  }

  lemma RxHelps(s: State, n: nat)
    requires InStep(s) && AllEvents(s) < EventsFor(n) && (s.rx.RxRunning? ==> s.rx.k < 8)
    ensures Helps(s, RxStep(s), Rx, n)
  {
    var t := RxStep(s);
    hide InStep, RxStep, EnvClears, RxClears, TxClears, EnvLeft, RxLeft, TxLeft, Left, EventsOf, EventsFor, EnvAt, RxAt, TxAt,
         EnvCanGo, RxCanGo, TxCanGo, Helpful, Rank, Clears, AllEvents;
    RxMoves(s);
    RxParts(s, t, n);
    if s.rx.RxRunning? {
      if !RxCanGo(s, s.rx.k) {
        RxWaits(s);
      }
    } else if Clears(s) == 0 {
      AllLow(s);
      RxStarts(s);
    } else {
      RxNotClear(s);
    }
  }

  lemma TxParts(s: State, t: State, n: nat)
    requires t.env == s.env && t.rx == s.rx && AllEvents(s) < EventsFor(n)
    requires Moved(TxClears(s), TxLeft(s), EventsOf(TxAt(s)), TxClears(t), TxLeft(t), EventsOf(TxAt(t)))
    ensures TxClears(s) > 0 || EventsOf(TxAt(t)) > EventsOf(TxAt(s)) ==> Rank(t, n) < Rank(s, n)
    ensures TxClears(s) == 0 && EventsOf(TxAt(t)) == EventsOf(TxAt(s)) && Clears(s) > 0 ==>
              Rank(t, n) == Rank(s, n) && Tx != Helpful(s) && Helpful(t) == Helpful(s)
    ensures Clears(s) == 0 && EventsOf(TxAt(t)) == EventsOf(TxAt(s)) && TxLeft(t) < TxLeft(s) ==> Rank(t, n) < Rank(s, n)
  {
    hide EnvClears, RxClears, TxClears, EnvLeft, RxLeft, TxLeft, EventsOf, EventsFor, EnvAt, RxAt, TxAt, RankOf, Helpful;
    EnvUnmoved(s, t);
    RxUnmoved(s, t);
    LeftAtMost(s);
    if Clears(s) > 0 && TxClears(s) == 0 && EventsOf(TxAt(t)) == EventsOf(TxAt(s)) {
      HelpfulClears(s, t);
    }
    PartMoves(EnvClears(s) + RxClears(s), EnvLeft(s) + RxLeft(s), EventsOf(EnvAt(s)) + EventsOf(RxAt(s)),
              TxClears(s), TxLeft(s), EventsOf(TxAt(s)), TxClears(t), TxLeft(t), EventsOf(TxAt(t)), EventsFor(n));
    assert Clears(t) == EnvClears(s) + RxClears(s) + TxClears(t);
    assert Left(t) == EnvLeft(s) + RxLeft(s) + TxLeft(t);
    assert AllEvents(t) == EventsOf(EnvAt(s)) + EventsOf(RxAt(s)) + EventsOf(TxAt(t));
    assert Clears(s) == EnvClears(s) + RxClears(s) + TxClears(s);
    assert Left(s) == EnvLeft(s) + RxLeft(s) + TxLeft(s);
    assert AllEvents(s) == EventsOf(EnvAt(s)) + EventsOf(RxAt(s)) + EventsOf(TxAt(s));
  }

  lemma TxHelps(s: State, n: nat)
    requires InStep(s) && AllEvents(s) < EventsFor(n) && (s.tx.TxRunning? ==> s.tx.k < 8)
    ensures Helps(s, TxStep(s), Tx, n)
  {
    var t := TxStep(s);
    hide InStep, TxStep, EnvClears, RxClears, TxClears, EnvLeft, RxLeft, TxLeft, Left, EventsOf, EventsFor, EnvAt, RxAt, TxAt,
         EnvCanGo, RxCanGo, TxCanGo, Helpful, Rank, Clears, AllEvents;
    TxMoves(s);
    TxParts(s, t, n);
    if s.tx.TxRunning? {
      if !TxCanGo(s, s.tx.k) {
        TxWaits(s);
      }
    } else if Clears(s) == 0 {
      AllLow(s);
      TxStarts(s);
    } else {
      TxNotClear(s);
    }
  }

  lemma AgentHelps(s: State, a: Agent, n: nat)
    requires InStep(s) && TxToEnv(s) < n
    ensures InStep(OrderlyStep(s, a)) && Helps(s, OrderlyStep(s, a), a, n)
  {
    hide InStep, Helps, EnvStep, RxStep, TxStep, TooEarly, AllEvents, EventsFor, TxToEnv;
    if AllEvents(s) >= EventsFor(n) {
      ManyEvents(s, n);
    }
    RunningInRange(s);
    if TooEarly(s, a) {
      TooEarlyIsNoHelp(s, a);
    } else {
      AgentKeepsStep(s, a);
    }
    if !TooEarly(s, a) {
      match a
      case Env => EnvHelps(s, n);
      case Rx => RxHelps(s, n);
      case Tx => TxHelps(s, n);
    } else {
      StandsStill(s, a, n);
    }
  }

  lemma RunningInRange(s: State)
    requires InStep(s)
    ensures s.env.EnvRunning? ==> s.env.k < 8
    ensures s.rx.RxRunning? ==> s.rx.k < 8
    ensures s.tx.TxRunning? ==> s.tx.k < 8
  {
  }

  lemma StandsStill(s: State, a: Agent, n: nat)
    requires a != Helpful(s)
    ensures Helps(s, s, a, n)
  {
  }

  // ----- Fair runs -----

  lemma {:induction false} OrderlyRun(s: State, schedule: seq<Agent>, n: nat)
    requires Orderly(s, schedule) && n <= |schedule|
    ensures Run(OrderlyStep, s, schedule[..n]) == Reached(s, schedule[..n]) && Orderly(s, schedule[..n])
    decreases n
  {
    hide AgentStep, TooEarly;
    if n > 0 {
      assert schedule[..n][1..] == schedule[1..][..n - 1];
      OrderlyRun(AgentStep(s, schedule[0]), schedule[1..], n - 1);
    }
  }

  function Back(n: nat): State -> bool { s => TxToEnv(s) >= n }
  function RankFor(n: nat): State -> nat { s => Rank(s, n) }

  lemma StepProgresses(s: State, a: Agent, n: nat)
    requires InStep(s) && TxToEnv(s) < n
    ensures Progresses(OrderlyStep, InStep, Back(n), RankFor(n), Helpful, s, a)
  {
    AgentHelps(s, a, n);
    hide InStep, Rank, Helpful, TxToEnv, OrderlyStep;
  }

  lemma RingProgresses(n: nat)
    ensures AlwaysProgresses(OrderlyStep, InStep, Back(n), RankFor(n), Helpful, {Env, Rx, Tx})
  {
    hide InStep, Rank, Helpful, TxToEnv, OrderlyStep, Progresses;
    forall s: State | InStep(s) && !Back(n)(s)
      ensures Helpful(s) in {Env, Rx, Tx}
      ensures forall a: Agent :: Progresses(OrderlyStep, InStep, Back(n), RankFor(n), Helpful, s, a)
    {
      match Helpful(s) { case Env => case Rx => case Tx => }
      forall a: Agent ensures Progresses(OrderlyStep, InStep, Back(n), RankFor(n), Helpful, s, a) {
        StepProgresses(s, a, n);
      }
    }
  }

  lemma ComesBack(s: State, schedule: seq<Agent>, n: nat, m: nat) returns (k: nat)
    requires Initial(s) && Orderly(s, schedule) && Rounds(schedule, {Env, Rx, Tx}, m) && m > 132 + EventsFor(n)
    ensures k <= |schedule| && TxToEnv(Reached(s, schedule[..k])) >= n
  {
    InitiallyInStep(s);
    RankAtFirst(s, n);
    RingProgresses(n);
    assert RankFor(n)(s) == Rank(s, n);
    hide InStep, Rank, Helpful, TxToEnv, OrderlyStep, Orderly, Rounds, AlwaysProgresses, Progresses, Reached, Run, EventsFor;
    FairRunComes(OrderlyStep, InStep, Back(n), RankFor(n), Helpful, {Env, Rx, Tx}, s, schedule, m);
    k :| k <= |schedule| && Back(n)(Run(OrderlyStep, s, schedule[..k]));
    OrderlyRun(s, schedule, k);
  }

  /** From any levels: an orderly run in which each agent has a turn in every round of more than the given number has
      brought n requests back to Env. */
  lemma FairRequestsComeBack(s: State, schedule: seq<Agent>, n: nat, m: nat)
    requires Initial(s) && Orderly(s, schedule) && Rounds(schedule, {Env, Rx, Tx}, m) && m > 180 + 24 * n
    ensures TxToEnv(Reached(s, schedule)) >= n
  {
    assert 132 + EventsFor(n) == 180 + 24 * n;
    hide *;
    var k := ComesBack(s, schedule, n, m);
    assert schedule[..k] + schedule[k..] == schedule;
    Continue(s, schedule[..k], schedule[k..]);
    StaysBack(Reached(s, schedule[..k]), schedule[k..]);
  }

  lemma StepStaysBack(s: State, a: Agent)
    ensures TxToEnv(AgentStep(s, a)) >= TxToEnv(s)
  {
    match a
    case Env => assert s.env.EnvRunning? ==> EnvStep(s) == EnvLoop(s, s.env.round, s.env.k);
    case Rx => RxFrame(s); hide RxStep;
    case Tx => TxFrame(s); hide TxStep;
  }

  lemma {:induction false} StaysBack(s: State, schedule: seq<Agent>)
    ensures TxToEnv(Reached(s, schedule)) >= TxToEnv(s)
    decreases |schedule|
  {
    if schedule != [] {
      hide AgentStep, TxToEnv;
      StepStaysBack(s, schedule[0]);
      StaysBack(AgentStep(s, schedule[0]), schedule[1..]);
    }
  }

  lemma NoEvents()
    ensures EventsOf(At(0, 0)) == 0
  {
  }

  lemma PartsAtFirst(s: State)
    requires Initial(s)
    ensures Clears(s) == 6 && EnvAt(s) == RxAt(s) == TxAt(s) == At(0, 0)
  {
  }

  lemma RankAtFirst(s: State, n: nat)
    requires Initial(s)
    ensures Rank(s, n) == 132 + EventsFor(n)
  {
    hide EventsFor, EventsOf, EnvAt, RxAt, TxAt, Clears, Left;
    PartsAtFirst(s);
    NoEvents();
  }
}
