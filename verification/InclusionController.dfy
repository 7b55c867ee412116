/** The inclusion controller hand-over protocol (src/CC_InclusionController.c). The gateway plays two parts
    with one set of variables: it asks the SUC to include a node (and may do S0 for it), or it includes a
    node on behalf of another controller (and may ask that one to do S0). Every method is one event; the
    ledger holds what callers and peers have seen, and `Balanced` ties it to the state after any run. */
module InclusionController {

  datatype HandlerState = Idle | WaitForSucAccept | WaitForAdd | WaitS0Inclusion | PerformS0Inclusion

  datatype Step = ProxyInclusion | S0Inclusion | ProxyReplace | UnknownStep

  datatype Content = Initiate(node: nat, step: Step) | Complete(step: Step, status: int)

  /** A frame, the session it was sent in and the node it went to. */
  datatype Frame = Frame(session: nat, to: nat, content: Content)

  /** A completion callback that was called, and with which status. */
  datatype Call = Call(callback: nat, status: int)

  /** handovers, s0Requests: the callbacks of the accepted requests; initiates: the nodes other controllers
      had us include; reports: the COMPLETE reports for these; peers: the peer of each session. */
  datatype Ledger = Ledger(
    handovers: seq<nat>, completions: seq<Call>, s0Requests: seq<nat>, s0Completions: seq<Call>,
    initiates: seq<nat>, reports: seq<int>, peers: seq<nat>, frames: seq<Frame>)

  /** Each request was called back once, in order, by its own callback; `pending` has not been yet. */
  predicate Settled(requests: seq<nat>, calls: seq<Call>, pending: bool, callback: nat) {
    && |requests| == |calls| + (if pending then 1 else 0)
    && (forall i :: 0 <= i < |calls| ==> calls[i].callback == requests[i])
    && (pending ==> requests[|calls|] == callback)
  }

  predicate ToPeers(frames: seq<Frame>, peers: seq<nat>) {
    forall i :: 0 <= i < |frames| ==> frames[i].session < |peers| && frames[i].to == peers[frames[i].session]
  }

  class Handler {
    var state: HandlerState
    var completeFunc: nat
    var nodeId: nat
    var peer: nat
    var isReplace: bool
    ghost var ledger: Ledger

    predicate Asking()
      reads this
    {
      state == WaitForSucAccept || state == PerformS0Inclusion
    }

    predicate Serving()
      reads this
    {
      state == WaitForAdd || state == WaitS0Inclusion
    }

    /** What every run keeps. */
    ghost predicate Balanced()
      reads this
    {
      && Settled(ledger.handovers, ledger.completions, Asking(), completeFunc)
      && Settled(ledger.s0Requests, ledger.s0Completions, state == WaitS0Inclusion, completeFunc)
      && |ledger.initiates| == |ledger.reports| + (if Serving() then 1 else 0)
      && ToPeers(ledger.frames, ledger.peers)
      && |ledger.peers| == |ledger.handovers| + |ledger.initiates|
      && (state != Idle ==> |ledger.peers| > 0 && ledger.peers[|ledger.peers| - 1] == peer)
    }

    constructor ()
      ensures Balanced() && state == Idle
    {
      state := Idle;
      completeFunc, nodeId, peer, isReplace := 0, 0, 0, false;
      ledger := Ledger([], [], [], [], [], [], [], []);
    }

    method Send(content: Content)
      requires Balanced() && state != Idle
      modifies this`ledger
      ensures Balanced()
      ensures ledger == old(ledger).(frames := old(ledger.frames) + [Frame(|ledger.peers| - 1, peer, content)])
    {
      ledger := ledger.(frames := ledger.frames + [Frame(|ledger.peers| - 1, peer, content)]);
    }

    /** The hand-over ends: the machine is idle before the caller hears of it. */
    method FinishHandover(status: int)
      requires Balanced() && state == WaitForSucAccept
      modifies this`state, this`ledger
      ensures Balanced() && state == Idle
      ensures ledger == old(ledger).(completions := old(ledger.completions) + [Call(completeFunc, status)])
    {
      state := Idle;
      ledger := ledger.(completions := ledger.completions + [Call(completeFunc, status)]);
    }

    /** send_done: only a hand-over waits for it, and only a failure ends one. */
    method SendDone(ok: bool)
      requires Balanced() && state != PerformS0Inclusion
      modifies this`state, this`ledger
      ensures Balanced()
      ensures old(state) == WaitForSucAccept && !ok ==>
                && state == Idle
                && ledger == old(ledger).(completions := old(ledger.completions) + [Call(completeFunc, 0)])
      ensures old(state) != WaitForSucAccept || ok ==> state == old(state) && ledger == old(ledger)
    {
      if state == WaitForSucAccept && !ok {
        FinishHandover(0);
      }
    }

    /** request_inclusion_controller_handover; callback 0 is the null pointer. A busy handler refuses at
        once, except that a null callback lets the request overwrite the running session's node. An idle
        handler accepts a null callback too; the ledger's call to it is then a call through null. */
    method RequestHandover(node: nat, replace: bool, callback: nat, suc: nat, accepted: bool) returns (refused: bool)
      requires Balanced() && (state == PerformS0Inclusion ==> callback != 0)
      modifies this
      ensures Balanced()
      ensures refused == (old(state) != Idle && callback != 0)
      ensures nodeId == (if refused then old(nodeId) else node)
      ensures isReplace == (if refused then old(isReplace) else replace)
      ensures completeFunc == (if old(state) == Idle then callback else old(completeFunc))
      ensures old(state) != Idle ==> state == old(state) && ledger == old(ledger) && peer == old(peer)
      ensures old(state) == Idle ==>
                && peer == suc
                && state == (if accepted then WaitForSucAccept else Idle)
                && ledger == old(ledger).(
                     handovers := old(ledger.handovers) + [callback],
                     peers := old(ledger.peers) + [suc],
                     frames := old(ledger.frames) + [Frame(|old(ledger.peers)|, suc,
                                 Initiate(node, if replace then ProxyReplace else ProxyInclusion))],
                     completions := old(ledger.completions) + (if accepted then [] else [Call(callback, 0)]))
    {
      if state != Idle && callback != 0 {
        return true;
      }
      nodeId := node;
      isReplace := replace;
      if state == Idle {
        state := WaitForSucAccept;
        completeFunc := callback;
        peer := suc;
        ledger := ledger.(handovers := ledger.handovers + [callback], peers := ledger.peers + [suc]);
        Send(Initiate(nodeId, if isReplace then ProxyReplace else ProxyInclusion));
        if !accepted {
          SendDone(false);
        }
      }
      return false;
    }

    /** INCLUSION_CONTROLLER_INITIATE from a node that passed the sender checks. */
    method ReceiveInitiate(sender: nat, node: nat, step: Step, hasS0: bool, accepted: bool)
      requires Balanced() && state != PerformS0Inclusion
      modifies this`state, this`peer, this`nodeId, this`ledger
      ensures Balanced() && (old(state) != Idle ==> nodeId == old(nodeId))
      ensures old(state) == Idle && (step == ProxyInclusion || step == ProxyReplace) ==>
                && state == WaitForAdd && peer == sender && nodeId == node
                && ledger == old(ledger).(initiates := old(ledger.initiates) + [node],
                                          peers := old(ledger.peers) + [sender])
      ensures old(state) == Idle && step != ProxyInclusion && step != ProxyReplace ==>
                state == Idle && peer == sender && nodeId == node && ledger == old(ledger)
      ensures old(state) == WaitForSucAccept && step == S0Inclusion ==>
                && peer == old(peer)
                && state == (if hasS0 then PerformS0Inclusion else if accepted then WaitForSucAccept else Idle)
                && ledger == if hasS0 then old(ledger) else old(ledger).(
                     frames := old(ledger.frames) +
                       [Frame(|old(ledger.peers)| - 1, peer, Complete(S0Inclusion, STEP_NOT_SUPPORTED))],
                     completions := old(ledger.completions) + (if accepted then [] else [Call(completeFunc, 0)]))
      ensures old(state) != Idle && !(old(state) == WaitForSucAccept && step == S0Inclusion) ==>
                state == old(state) && peer == old(peer) && ledger == old(ledger)
    {
      if state == Idle {
        peer := sender;
        nodeId := node;
        state := WaitForAdd;
        if step == ProxyInclusion || step == ProxyReplace {
          ledger := ledger.(initiates := ledger.initiates + [node], peers := ledger.peers + [sender]);
        } else {
          state := Idle;
        }
      } else if state == WaitForSucAccept && step == S0Inclusion {
        state := PerformS0Inclusion;
        if !hasS0 {
          S0InclusionDone(STEP_NOT_SUPPORTED, accepted);
        }
      }
    }

    /** The S0 bootstrapping we did for the SUC is over; the hand-over goes on. */
    method S0InclusionDone(status: int, accepted: bool)
      requires Balanced()
      modifies this`state, this`ledger
      ensures Balanced()
      ensures old(state) == PerformS0Inclusion ==>
                && state == (if accepted then WaitForSucAccept else Idle)
                && ledger == old(ledger).(
                     frames := old(ledger.frames) +
                       [Frame(|old(ledger.peers)| - 1, peer, Complete(S0Inclusion, status))],
                     completions := old(ledger.completions) + (if accepted then [] else [Call(completeFunc, 0)]))
      ensures old(state) != PerformS0Inclusion ==> state == old(state) && ledger == old(ledger)
    {
      if state == PerformS0Inclusion {
        state := WaitForSucAccept;
        Send(Complete(S0Inclusion, status));
        if !accepted {
          SendDone(false);
        }
      }
    }

    /** INCLUSION_CONTROLLER_COMPLETE from a node that passed the sender checks. */
    method ReceiveComplete(step: Step, status: int)
      requires Balanced() && state != PerformS0Inclusion
      modifies this`state, this`ledger
      ensures Balanced()
      ensures old(state) == WaitForSucAccept && (step == ProxyInclusion || step == ProxyReplace) ==>
                && state == Idle
                && ledger == old(ledger).(completions := old(ledger.completions) + [Call(completeFunc, 1)])
      ensures old(state) == WaitS0Inclusion && step == S0Inclusion ==>
                && state == WaitForAdd
                && ledger == old(ledger).(s0Completions := old(ledger.s0Completions) + [Call(completeFunc, status)])
      ensures !(old(state) == WaitForSucAccept && (step == ProxyInclusion || step == ProxyReplace)) ==>
                (old(state) == WaitS0Inclusion && step == S0Inclusion) || (state == old(state) && ledger == old(ledger))
    {
      if state == WaitForSucAccept && (step == ProxyInclusion || step == ProxyReplace) {
        FinishHandover(1);
      } else if state == WaitS0Inclusion && step == S0Inclusion {
        FinishS0(status);
      }
    }

    method FinishS0(status: int)
      requires Balanced() && state == WaitS0Inclusion
      modifies this`state, this`ledger
      ensures Balanced() && state == WaitForAdd
      ensures ledger == old(ledger).(s0Completions := old(ledger.s0Completions) + [Call(completeFunc, status)])
    {
      state := WaitForAdd;
      ledger := ledger.(s0Completions := ledger.s0Completions + [Call(completeFunc, status)]);
    }

    /** The one timer, which no transition stops: it may also have been started by an earlier session. */
    method Timeout()
      requires Balanced() && state != PerformS0Inclusion
      modifies this`state, this`ledger
      ensures Balanced()
      ensures old(state) == WaitForSucAccept ==>
                && state == Idle
                && ledger == old(ledger).(completions := old(ledger.completions) + [Call(completeFunc, 0)])
      ensures old(state) == WaitS0Inclusion ==>
                && state == WaitForAdd
                && ledger == old(ledger).(s0Completions := old(ledger.s0Completions) + [Call(completeFunc, 0)])
      ensures old(state) != WaitForSucAccept && old(state) != WaitS0Inclusion ==>
                state == old(state) && ledger == old(ledger)
    {
      if state == WaitForSucAccept {
        FinishHandover(0);
      } else if state == WaitS0Inclusion {
        FinishS0(0);
      }
    }

    /** inclusion_controller_you_do_it. A refused send reports failure while the state is still WaitForAdd,
        where it is ignored. */
    method YouDoIt(callback: nat, accepted: bool)
      requires Balanced() && state != PerformS0Inclusion
      modifies this`state, this`completeFunc, this`ledger
      ensures Balanced()
      ensures old(state) == WaitForAdd ==>
                && state == WaitS0Inclusion && completeFunc == callback
                && ledger == old(ledger).(s0Requests := old(ledger.s0Requests) + [callback],
                     frames := old(ledger.frames) +
                       [Frame(|old(ledger.peers)| - 1, peer, Initiate(nodeId, S0Inclusion))])
      ensures old(state) != WaitForAdd ==>
                state == old(state) && ledger == old(ledger) && completeFunc == old(completeFunc)
    {
      if state == WaitForAdd {
        completeFunc := callback;
        Send(Initiate(nodeId, S0Inclusion));
        if !accepted {
          SendDone(false);
        }
        state := WaitS0Inclusion;
        ledger := ledger.(s0Requests := ledger.s0Requests + [callback]);
      }
    }

    /** inclusion_controller_send_report. The report names the inclusion step also after a replace. */
    method SendReport(status: int)
      requires Balanced() && state != PerformS0Inclusion
      modifies this`state, this`ledger
      ensures Balanced()
      ensures old(state) == WaitForAdd ==>
                && state == Idle
                && ledger == old(ledger).(reports := old(ledger.reports) + [status],
                     frames := old(ledger.frames) +
                       [Frame(|old(ledger.peers)| - 1, peer, Complete(ProxyInclusion, status))])
      ensures old(state) != WaitForAdd ==> state == old(state) && ledger == old(ledger)
    {
      if state == WaitForAdd {
        Send(Complete(ProxyInclusion, status));
        state := Idle;
        ledger := ledger.(reports := ledger.reports + [status]);
      }
    }
  }

  const STEP_NOT_SUPPORTED: int := 4
}
