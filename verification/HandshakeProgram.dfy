/** The three agents as imperative code on the six signals. */
module HandshakeProgram {
  import opened Handshake
  import opened HandshakeTheorems

  class Ring {
    var envRxReq: bool
    var rxEnvAck: bool
    var rxTxReq: bool
    var txRxAck: bool
    var txEnvReq: bool
    var envTxAck: bool
    // Where each agent is.
    var env: EnvState
    var rx: RxState
    var tx: TxState

    ghost function View(): State
      reads this
    {
      State(envRxReq, rxEnvAck, rxTxReq, txRxAck, txEnvReq, envTxAck, env, rx, tx)
    }

    /** Any levels on the signals. */
    constructor (levels: State)
      requires Initial(levels)
      ensures View() == levels
    {
      envRxReq, rxEnvAck, rxTxReq := levels.envRxReq, levels.rxEnvAck, levels.rxTxReq;
      txRxAck, txEnvReq, envTxAck := levels.txRxAck, levels.txEnvReq, levels.envTxAck;
      env, rx, tx := EnvClearReq, RxClearAck, TxClearAck;
    }

    method EnvThread()
      modifies this`env, this`envRxReq, this`envTxAck
      ensures View() == EnvStep(old(View()))
    {
      match env {
        case EnvClearReq => envRxReq, env := false, EnvClearAck;
        case EnvClearAck => envTxAck, env := false, EnvReadAck;
        case EnvReadAck => env := EnvReadReq(rxEnvAck);
        case EnvReadReq(ack) => env := if !ack && !txEnvReq then EnvRunning(0, 0) else EnvReadAck;
        case EnvRunning(round, k) =>
          if k == 0 {
            envRxReq := true;
          } else if (k == 1 && !rxEnvAck) || (k == 3 && rxEnvAck) || (k == 4 && !txEnvReq) || (k == 6 && txEnvReq) {
            return;
          } else if k == 2 {
            envRxReq := false;
          } else if k == 5 {
            envTxAck := true;
          } else if k == 7 {
            envTxAck := false;
          }
          env := EnvNext(round, k);
      }
    }

    method RxThread()
      modifies this`rx, this`rxEnvAck, this`rxTxReq
      ensures View() == RxStep(old(View()))
    {
      match rx {
        case RxClearAck => rxEnvAck, rx := false, RxClearReq;
        case RxClearReq => rxTxReq, rx := false, RxReadAck;
        case RxReadAck => rx := RxReadReq(txRxAck);
        case RxReadReq(ack) => rx := if !ack && !envRxReq then RxRunning(0, 0) else RxReadAck;
        case RxRunning(round, k) =>
          if (k == 0 && !envRxReq) || (k == 2 && envRxReq) || (k == 5 && !txRxAck) || (k == 7 && txRxAck) {
            return;
          } else if k == 1 {
            rxEnvAck := true;
          } else if k == 3 {
            rxEnvAck := false;
          } else if k == 4 {
            rxTxReq := true;
          } else if k == 6 {
            rxTxReq := false;
          }
          rx := RxNext(round, k);
      }
    }

    method TxThread()
      modifies this`tx, this`txRxAck, this`txEnvReq
      ensures View() == TxStep(old(View()))
    {
      match tx {
        case TxClearAck => txRxAck, tx := false, TxClearReq;
        case TxClearReq => txEnvReq, tx := false, TxReadReq;
        case TxReadReq => tx := TxReadAck(rxTxReq);
        case TxReadAck(req) => tx := if !req && !envTxAck then TxRunning(0, 0) else TxReadReq;
        case TxRunning(round, k) =>
          if (k == 0 && !rxTxReq) || (k == 2 && rxTxReq) || (k == 5 && !envTxAck) || (k == 7 && envTxAck) {
            return;
          } else if k == 1 {
            txRxAck := true;
          } else if k == 3 {
            txRxAck := false;
          } else if k == 4 {
            txEnvReq := true;
          } else if k == 6 {
            txEnvReq := false;
          }
          tx := TxNext(round, k);
      }
    }

    /** The transfers completed on the three links. */
    method Completed() returns (envToRx: nat, rxToTx: nat, txToEnv: nat)
      ensures envToRx == EnvToRx(View()) && rxToTx == RxToTx(View()) && txToEnv == TxToEnv(View())
    {
      envToRx := if rx.RxRunning? then rx.round + (if rx.k >= 4 then 1 else 0) else 0;
      rxToTx := if tx.TxRunning? then tx.round + (if tx.k >= 4 then 1 else 0) else 0;
      txToEnv := if env.EnvRunning? then env.round else 0;
    }

    /** The agents run in any order. */
    method Run(schedule: seq<Agent>)
      modifies this
      ensures View() == Reached(old(View()), schedule)
    {
      hide EnvStep, RxStep, TxStep;
      ghost var s0 := View();
      for n := 0 to |schedule|
        invariant Reached(View(), schedule[n..]) == Reached(s0, schedule)
      {
        assert schedule[n..][0] == schedule[n] && schedule[n..][1..] == schedule[n + 1..];
        match schedule[n] {
          case Env => EnvThread();
          case Rx => RxThread();
          case Tx => TxThread();
        }
      }
    }
  }

  /** The agents run in any order, from any levels: the transfers they complete on the three links follow each other
      round the ring, if no request is raised before its responder is ready; otherwise one link never completes any. */
  method RunRing(levels: State, schedule: seq<Agent>) returns (envToRx: nat, rxToTx: nat, txToEnv: nat)
    requires Initial(levels)
    ensures Orderly(levels, schedule) ==> envToRx >= rxToTx >= txToEnv >= envToRx - 1
    ensures !Orderly(levels, schedule) ==> envToRx == 0 || rxToTx == 0
  {
    var ring := new Ring(levels);
    ring.Run(schedule);
    ghost var s := ring.View();
    hide EnvToRx, RxToTx, TxToEnv, Orderly, Reached;
    envToRx, rxToTx, txToEnv := ring.Completed();
    if Orderly(levels, schedule) {
      TransfersInOrder(levels, schedule);
    } else {
      MissedForEver(levels, schedule, []);
      assert schedule + [] == schedule;
    }
  }
}
