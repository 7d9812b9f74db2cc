/** The ring of three agents that pass a request from Env to Rx to Tx and back by four-phase handshakes over level
    signals. A signal holds what was last written to it, before that anything. */
module Handshake {

  /** An agent is in its start-up, or in its endless loop: k of the eight events of the current round are done. */
  datatype EnvState = EnvClearReq | EnvClearAck | EnvReadAck | EnvReadReq(ack: bool) | EnvRunning(round: nat, k: nat)
  datatype RxState = RxClearAck | RxClearReq | RxReadAck | RxReadReq(ack: bool) | RxRunning(round: nat, k: nat)
  datatype TxState = TxClearAck | TxClearReq | TxReadReq | TxReadAck(req: bool) | TxRunning(round: nat, k: nat)

  datatype State = State(
    envRxReq: bool, rxEnvAck: bool, rxTxReq: bool, txRxAck: bool, txEnvReq: bool, envTxAck: bool,
    env: EnvState, rx: RxState, tx: TxState)

  datatype Agent = Env | Rx | Tx

  /** Any levels on the signals at the start. */
  predicate Initial(s: State) {
    s.env == EnvClearReq && s.rx == RxClearAck && s.tx == TxClearAck
  }

  function EnvNext(round: nat, k: nat): EnvState { if k < 7 then EnvRunning(round, k + 1) else EnvRunning(round + 1, 0) }

  /** What the polling loops of Env wait for. */
  predicate EnvCanGo(s: State, k: nat) {
    match k
    case 1 => s.rxEnvAck
    case 3 => !s.rxEnvAck
    case 4 => s.txEnvReq
    case 6 => !s.txEnvReq
    case _ => true
  }

  function EnvLoop(s: State, round: nat, k: nat): State {
    if !EnvCanGo(s, k) then s
    else s.(envRxReq := if k == 0 then true else if k == 2 then false else s.envRxReq,
            envTxAck := if k == 5 then true else if k == 7 then false else s.envTxAck,
            env := EnvNext(round, k))
  }

  function EnvStep(s: State): State {
    match s.env
    case EnvClearReq => s.(envRxReq := false, env := EnvClearAck)
    case EnvClearAck => s.(envTxAck := false, env := EnvReadAck)
    case EnvReadAck => s.(env := EnvReadReq(s.rxEnvAck))
    case EnvReadReq(ack) => s.(env := if !ack && !s.txEnvReq then EnvRunning(0, 0) else EnvReadAck)
    case EnvRunning(round, k) => EnvLoop(s, round, k)
  }

  function RxNext(round: nat, k: nat): RxState { if k < 7 then RxRunning(round, k + 1) else RxRunning(round + 1, 0) }

  /** What the polling loops of Rx wait for. */
  predicate RxCanGo(s: State, k: nat) {
    match k
    case 0 => s.envRxReq
    case 2 => !s.envRxReq
    case 5 => s.txRxAck
    case 7 => !s.txRxAck
    case _ => true
  }

  function RxLoop(s: State, round: nat, k: nat): State {
    if !RxCanGo(s, k) then s
    else s.(rxEnvAck := if k == 1 then true else if k == 3 then false else s.rxEnvAck,
            rxTxReq := if k == 4 then true else if k == 6 then false else s.rxTxReq,
            rx := RxNext(round, k))
  }

  function RxStep(s: State): State {
    match s.rx
    case RxClearAck => s.(rxEnvAck := false, rx := RxClearReq)
    case RxClearReq => s.(rxTxReq := false, rx := RxReadAck)
    case RxReadAck => s.(rx := RxReadReq(s.txRxAck))
    case RxReadReq(ack) => s.(rx := if !ack && !s.envRxReq then RxRunning(0, 0) else RxReadAck)
    case RxRunning(round, k) => RxLoop(s, round, k)
  }

  function TxNext(round: nat, k: nat): TxState { if k < 7 then TxRunning(round, k + 1) else TxRunning(round + 1, 0) }

  /** What the polling loops of Tx wait for. */
  predicate TxCanGo(s: State, k: nat) {
    match k
    case 0 => s.rxTxReq
    case 2 => !s.rxTxReq
    case 5 => s.envTxAck
    case 7 => !s.envTxAck
    case _ => true
  }

  function TxLoop(s: State, round: nat, k: nat): State {
    if !TxCanGo(s, k) then s
    else s.(txRxAck := if k == 1 then true else if k == 3 then false else s.txRxAck,
            txEnvReq := if k == 4 then true else if k == 6 then false else s.txEnvReq,
            tx := TxNext(round, k))
  }

  function TxStep(s: State): State {
    match s.tx
    case TxClearAck => s.(txRxAck := false, tx := TxClearReq)
    case TxClearReq => s.(txEnvReq := false, tx := TxReadReq)
    case TxReadReq => s.(tx := TxReadAck(s.rxTxReq))
    case TxReadAck(req) => s.(tx := if !req && !s.envTxAck then TxRunning(0, 0) else TxReadReq)
    case TxRunning(round, k) => TxLoop(s, round, k)
  }

  function AgentStep(s: State, a: Agent): State {
    match a
    case Env => EnvStep(s)
    case Rx => RxStep(s)
    case Tx => TxStep(s)
  }

  /** The state after a schedule. */
  function Reached(s: State, schedule: seq<Agent>): State
    decreases |schedule|
  {
    if schedule == [] then s else Reached(AgentStep(s, schedule[0]), schedule[1..])
  }

  // ----- Events -----

  /** What an agent has done of its loop: rounds, and events of the current round. */
  datatype Progress = At(round: nat, k: nat)

  function EnvAt(s: State): Progress { if s.env.EnvRunning? then At(s.env.round, s.env.k) else At(0, 0) }
  function RxAt(s: State): Progress { if s.rx.RxRunning? then At(s.rx.round, s.rx.k) else At(0, 0) }
  function TxAt(s: State): Progress { if s.tx.TxRunning? then At(s.tx.round, s.tx.k) else At(0, 0) }

  /** An agent's events on the link it uses first, and on the other: four of each in every round. */
  function First(p: Progress): nat { p.round * 4 + if p.k < 4 then p.k else 4 }
  function Second(p: Progress): nat { p.round * 4 + if p.k < 4 then 0 else p.k - 4 }

  /** Completed transfers: those after which the responder has lowered its acknowledge again. */
  function EnvToRx(s: State): nat { RxAt(s).round + if RxAt(s).k >= 4 then 1 else 0 }
  function RxToTx(s: State): nat { TxAt(s).round + if TxAt(s).k >= 4 then 1 else 0 }
  function TxToEnv(s: State): nat { EnvAt(s).round }

  /** Has the initiator of the link just raised or just lowered its request? */
  predicate FirstPending(p: Progress) { p.k == 1 || p.k == 3 }
  predicate SecondPending(p: Progress) { p.k == 5 || p.k == 7 }

  /** The four phases of one link, for a events of the initiator (raise, see acknowledge, lower, see it low) and b of
      the responder (see request, raise, see it low, lower): while the initiator does not wait, the responder has done
      as many events; while it does, one fewer, as many, or one more. */
  predicate InOrder(a: nat, pending: bool, b: nat) {
    if pending then a - 1 <= b <= a + 1 else b == a
  }

  /** The signals of the agents that have left their start-up are where their events put them; those of an agent in its
      start-up are low once it has cleared them. */
  ghost predicate LevelsOk(s: State) {
    && (s.env.EnvRunning? ==> s.env.k < 8 && s.envRxReq == (1 <= s.env.k <= 2) && s.envTxAck == (6 <= s.env.k))
    && (s.rx.RxRunning? ==> s.rx.k < 8 && s.rxEnvAck == (2 <= s.rx.k <= 3) && s.rxTxReq == (5 <= s.rx.k <= 6))
    && (s.tx.TxRunning? ==> s.tx.k < 8 && s.txRxAck == (2 <= s.tx.k <= 3) && s.txEnvReq == (5 <= s.tx.k <= 6))
    && (s.env.EnvReadAck? || s.env.EnvReadReq? ==> !s.envRxReq && !s.envTxAck)
    && (s.env.EnvClearAck? ==> !s.envRxReq)
    && (s.rx.RxReadAck? || s.rx.RxReadReq? ==> !s.rxEnvAck && !s.rxTxReq)
    && (s.rx.RxClearReq? ==> !s.rxEnvAck)
    && (s.tx.TxReadReq? || s.tx.TxReadAck? ==> !s.txRxAck && !s.txEnvReq)
    && (s.tx.TxClearReq? ==> !s.txRxAck)
  }

  /** Tx is out of its start-up, or will leave it at its next step: it has seen the request low already. */
  predicate TxReady(s: State) {
    s.tx.TxRunning? || (s.tx.TxReadAck? && !s.tx.req)
  }

  /** The link from Env to Rx: in order, and not used before both are ready for it. */
  ghost predicate EnvRxOk(s: State) {
    && InOrder(First(EnvAt(s)), FirstPending(EnvAt(s)), First(RxAt(s)))
    && (!s.rx.RxRunning? ==> EnvAt(s) == At(0, 0))
    && (!s.env.EnvRunning? ==> RxAt(s) == At(0, 0))
    && (s.rx.RxRunning? && !s.env.EnvRunning? ==> !s.envRxReq)
    && (s.env.EnvRunning? && !s.rx.RxRunning? ==> !s.rxEnvAck)
    && (s.env.EnvReadReq? && !s.env.ack && !s.rx.RxRunning? ==> !s.rxEnvAck)
  }

  ghost predicate RxTxOk(s: State) {
    && InOrder(Second(RxAt(s)), SecondPending(RxAt(s)), First(TxAt(s)))
    && (!TxReady(s) ==> Second(RxAt(s)) == 0)
    && (!s.rx.RxRunning? ==> TxAt(s) == At(0, 0))
    && (s.tx.TxRunning? && !s.rx.RxRunning? ==> !s.rxTxReq)
    && (s.tx.TxReadAck? && !s.tx.req && !s.rx.RxRunning? ==> !s.rxTxReq)
    && (s.rx.RxRunning? && !s.tx.TxRunning? ==> !s.txRxAck)
    && (s.rx.RxReadReq? && !s.rx.ack && !s.tx.TxRunning? ==> !s.txRxAck)
  }

  ghost predicate TxEnvOk(s: State) {
    && InOrder(Second(TxAt(s)), SecondPending(TxAt(s)), Second(EnvAt(s)))
    && (s.env.EnvRunning? && !s.tx.TxRunning? ==> !s.txEnvReq)
    && (s.tx.TxRunning? && !s.env.EnvRunning? ==> !s.envTxAck)
  }

  /** No request has been raised before its responder was ready for it. */
  ghost predicate InStep(s: State) {
    LevelsOk(s) && EnvRxOk(s) && RxTxOk(s) && TxEnvOk(s)
  }

  /** The request that starts the ring, or the one that Rx passes on, has come too early. */
  predicate Missed(s: State) {
    EnvMissed(s) || RxMissed(s)
  }

  /** The steps that raise a request before its responder is ready. */
  predicate TooEarly(s: State, a: Agent) {
    || (a == Env && s.env == EnvRunning(0, 0) && !s.rx.RxRunning?)
    || (a == Rx && s.rx == RxRunning(0, 4) && !TxReady(s))
  }

  lemma InitiallyInStep(s: State)
    requires Initial(s)
    ensures InStep(s)
  {
  }

  // Each agent keeps the levels and its own two links, in its start-up and in its loop, and does not touch the third.

  lemma StartingEnvKeepsLevels(s: State)
    requires LevelsOk(s) && !s.env.EnvRunning?
    ensures LevelsOk(EnvStep(s))
  {
  }

  lemma StartingEnvKeepsEnvRx(s: State)
    requires LevelsOk(s) && EnvRxOk(s) && !s.env.EnvRunning? && !TooEarly(s, Env)
    ensures EnvRxOk(EnvStep(s))
  {
  }

  lemma StartingEnvKeepsTxEnv(s: State)
    requires LevelsOk(s) && TxEnvOk(s) && !s.env.EnvRunning? && !TooEarly(s, Env)
    ensures TxEnvOk(EnvStep(s))
  {
  }

  lemma LoopingEnvKeepsLevels(s: State)
    requires LevelsOk(s) && s.env.EnvRunning?
    ensures LevelsOk(EnvStep(s))
  {
  }

  lemma LoopingEnvKeepsEnvRx(s: State)
    requires LevelsOk(s) && EnvRxOk(s) && s.env.EnvRunning? && !TooEarly(s, Env)
    ensures EnvRxOk(EnvStep(s))
  {
  }

  lemma LoopingEnvKeepsTxEnv(s: State)
    requires LevelsOk(s) && TxEnvOk(s) && s.env.EnvRunning? && !TooEarly(s, Env)
    ensures TxEnvOk(EnvStep(s))
  {
  }

  lemma EnvLoopFrame(s: State, round: nat, k: nat)
    ensures var r := EnvLoop(s, round, k);
      && r.rx == s.rx && r.tx == s.tx
      && r.rxEnvAck == s.rxEnvAck && r.rxTxReq == s.rxTxReq && r.txRxAck == s.txRxAck && r.txEnvReq == s.txEnvReq
  {
    hide EnvNext, EnvCanGo;
  }

  lemma EnvFrame(s: State)
    ensures var r := EnvStep(s);
      && r.rx == s.rx && r.tx == s.tx
      && r.rxEnvAck == s.rxEnvAck && r.rxTxReq == s.rxTxReq && r.txRxAck == s.txRxAck && r.txEnvReq == s.txEnvReq
  {
    if s.env.EnvRunning? {
      EnvLoopFrame(s, s.env.round, s.env.k);
    }
    hide EnvLoop;
  }

  lemma EnvLeavesRxTx(s: State)
    ensures RxTxOk(EnvStep(s)) == RxTxOk(s)
  {
    EnvFrame(s);
    hide EnvStep, InOrder, First, Second, FirstPending, SecondPending;
  }

  lemma EnvKeepsStep(s: State)
    requires InStep(s) && !TooEarly(s, Env)
    ensures InStep(EnvStep(s))
  {
    EnvLeavesRxTx(s);
    hide LevelsOk, EnvRxOk, RxTxOk, TxEnvOk, EnvStep, TooEarly;
    if s.env.EnvRunning? {
      LoopingEnvKeepsLevels(s);
      LoopingEnvKeepsEnvRx(s);
      LoopingEnvKeepsTxEnv(s);
    } else {
      StartingEnvKeepsLevels(s);
      StartingEnvKeepsEnvRx(s);
      StartingEnvKeepsTxEnv(s);
    }
  }

  lemma StartingRxKeepsLevels(s: State)
    requires LevelsOk(s) && !s.rx.RxRunning?
    ensures LevelsOk(RxStep(s))
  {
  }

  lemma StartingRxKeepsEnvRx(s: State)
    requires LevelsOk(s) && EnvRxOk(s) && !s.rx.RxRunning? && !TooEarly(s, Rx)
    ensures EnvRxOk(RxStep(s))
  {
  }

  lemma StartingRxKeepsRxTx(s: State)
    requires LevelsOk(s) && RxTxOk(s) && !s.rx.RxRunning? && !TooEarly(s, Rx)
    ensures RxTxOk(RxStep(s))
  {
  }

  lemma LoopingRxKeepsLevels(s: State)
    requires LevelsOk(s) && s.rx.RxRunning?
    ensures LevelsOk(RxStep(s))
  {
  }

  lemma LoopingRxKeepsEnvRx(s: State)
    requires LevelsOk(s) && EnvRxOk(s) && s.rx.RxRunning? && !TooEarly(s, Rx)
    ensures EnvRxOk(RxStep(s))
  {
  }

  lemma LoopingRxKeepsRxTx(s: State)
    requires LevelsOk(s) && RxTxOk(s) && s.rx.RxRunning? && !TooEarly(s, Rx)
    ensures RxTxOk(RxStep(s))
  {
  }

  lemma RxLoopFrame(s: State, round: nat, k: nat)
    ensures var r := RxLoop(s, round, k);
      && r.env == s.env && r.tx == s.tx
      && r.envRxReq == s.envRxReq && r.envTxAck == s.envTxAck && r.txRxAck == s.txRxAck && r.txEnvReq == s.txEnvReq
  {
    hide RxNext, RxCanGo;
  }

  lemma RxFrame(s: State)
    ensures var r := RxStep(s);
      && r.env == s.env && r.tx == s.tx
      && r.envRxReq == s.envRxReq && r.envTxAck == s.envTxAck && r.txRxAck == s.txRxAck && r.txEnvReq == s.txEnvReq
  {
    if s.rx.RxRunning? {
      RxLoopFrame(s, s.rx.round, s.rx.k);
    }
    hide RxLoop;
  }

  lemma RxLeavesTxEnv(s: State)
    ensures TxEnvOk(RxStep(s)) == TxEnvOk(s)
  {
    RxFrame(s);
    hide RxStep, InOrder, First, Second, FirstPending, SecondPending;
  }

  lemma RxKeepsStep(s: State)
    requires InStep(s) && !TooEarly(s, Rx)
    ensures InStep(RxStep(s))
  {
    RxLeavesTxEnv(s);
    hide LevelsOk, EnvRxOk, RxTxOk, TxEnvOk, RxStep, TooEarly;
    if s.rx.RxRunning? {
      LoopingRxKeepsLevels(s);
      LoopingRxKeepsEnvRx(s);
      LoopingRxKeepsRxTx(s);
    } else {
      StartingRxKeepsLevels(s);
      StartingRxKeepsEnvRx(s);
      StartingRxKeepsRxTx(s);
    }
  }

  lemma StartingTxKeepsLevels(s: State)
    requires LevelsOk(s) && !s.tx.TxRunning?
    ensures LevelsOk(TxStep(s))
  {
  }

  lemma StartingTxKeepsRxTx(s: State)
    requires LevelsOk(s) && RxTxOk(s) && !s.tx.TxRunning? && (!s.tx.TxRunning? && s.envTxAck ==> Second(RxAt(s)) == 0)
    ensures RxTxOk(TxStep(s))
  {
  }

  lemma StartingTxKeepsTxEnv(s: State)
    requires LevelsOk(s) && TxEnvOk(s) && !s.tx.TxRunning? && (!s.env.EnvRunning? ==> TxAt(s) == At(0, 0))
    ensures TxEnvOk(TxStep(s))
  {
  }

  lemma LoopingTxKeepsLevels(s: State)
    requires LevelsOk(s) && s.tx.TxRunning?
    ensures LevelsOk(TxStep(s))
  {
  }

  lemma LoopingTxKeepsRxTx(s: State)
    requires LevelsOk(s) && RxTxOk(s) && s.tx.TxRunning? && (!s.tx.TxRunning? && s.envTxAck ==> Second(RxAt(s)) == 0)
    ensures RxTxOk(TxStep(s))
  {
  }

  lemma LoopingTxKeepsTxEnv(s: State)
    requires LevelsOk(s) && TxEnvOk(s) && s.tx.TxRunning? && (!s.env.EnvRunning? ==> TxAt(s) == At(0, 0))
    ensures TxEnvOk(TxStep(s))
  {
  }

  lemma TxLoopFrame(s: State, round: nat, k: nat)
    ensures var r := TxLoop(s, round, k);
      && r.env == s.env && r.rx == s.rx
      && r.envRxReq == s.envRxReq && r.envTxAck == s.envTxAck && r.rxEnvAck == s.rxEnvAck && r.rxTxReq == s.rxTxReq
  {
    hide TxNext, TxCanGo;
  }

  lemma TxFrame(s: State)
    ensures var r := TxStep(s);
      && r.env == s.env && r.rx == s.rx
      && r.envRxReq == s.envRxReq && r.envTxAck == s.envTxAck && r.rxEnvAck == s.rxEnvAck && r.rxTxReq == s.rxTxReq
  {
    if s.tx.TxRunning? {
      TxLoopFrame(s, s.tx.round, s.tx.k);
    }
    hide TxLoop;
  }

  lemma TxLeavesEnvRx(s: State)
    ensures EnvRxOk(TxStep(s)) == EnvRxOk(s)
  {
    TxFrame(s);
    hide TxStep, InOrder, First, Second, FirstPending, SecondPending;
  }

  lemma NotBeforeEnv(s: State)
    requires InStep(s)
    ensures !s.env.EnvRunning? ==> TxAt(s) == At(0, 0)
    ensures !s.tx.TxRunning? && s.envTxAck ==> Second(RxAt(s)) == 0
  {
  }

  lemma TxKeepsStep(s: State)
    requires InStep(s) && !TooEarly(s, Tx)
    ensures InStep(TxStep(s))
  {
    NotBeforeEnv(s);
    TxLeavesEnvRx(s);
    hide LevelsOk, EnvRxOk, RxTxOk, TxEnvOk, TxStep, TooEarly;
    if s.tx.TxRunning? {
      LoopingTxKeepsLevels(s);
      LoopingTxKeepsRxTx(s);
      LoopingTxKeepsTxEnv(s);
    } else {
      StartingTxKeepsLevels(s);
      StartingTxKeepsRxTx(s);
      StartingTxKeepsTxEnv(s);
    }
  }

  lemma TooEarlyIsMissed(s: State, a: Agent)
    requires InStep(s) && TooEarly(s, a)
    ensures Missed(AgentStep(s, a))
  {
  }

  /** Env has raised its request before Rx was ready, or Rx before Tx was. */
  predicate EnvMissed(s: State) {
    !s.rx.RxRunning? && s.env == EnvRunning(0, 1) && s.envRxReq && !s.rxEnvAck
  }

  predicate RxMissed(s: State) {
    !TxReady(s) && s.rx == RxRunning(0, 5) && s.rxTxReq && !s.txRxAck
  }

  lemma EnvMissedStays(s: State, a: Agent)
    requires EnvMissed(s)
    ensures EnvMissed(AgentStep(s, a))
  {
    TxFrame(s);
    hide TxStep;
  }

  lemma RxMissedStays(s: State, a: Agent)
    requires RxMissed(s)
    ensures RxMissed(AgentStep(s, a))
  {
    EnvFrame(s);
    hide EnvStep;
  }

  lemma AgentKeepsStep(s: State, a: Agent)
    requires InStep(s) && !TooEarly(s, a)
    ensures InStep(AgentStep(s, a))
  {
    hide InStep, TooEarly, EnvStep, RxStep, TxStep;
    match a
    case Env => EnvKeepsStep(s);
    case Rx => RxKeepsStep(s);
    case Tx => TxKeepsStep(s);
  }
}
