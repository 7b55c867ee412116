/** The network management module as the gateway runs it (src/CC_NetworkManagement.c): one structure of state
    whose reactions post further events to the machine they are part of, and whose callbacks may run inside
    the call that asked for them. The reactions that only assign are those of module NetworkManagement; the
    ones that post are written out here and proved to terminate in what that module says. `Handle` then carries
    the laws over to the machine, and `Drive` to its runs. */
module NetworkManager {
  import opened UpdateLatch
  import opened NetworkManagement
  import opened NetworkLaws

  /** Bounds how deep a reaction posts events to the machine it is part of. */
  function Rank(st: NmState, ev: Event): nat {
    match st
    case ProxyInclusionWaitNif => 5
    case NodeFound => if ev.NodeAdded? then 4 else 3
    case WaitForProtocol => 3
    case ReplaceFailedReq => 3
    case PrepareSucInclusion => 4
    case WaitForSucInclusion => 3
    case WaitForSecureAdd => if ev.Timeout? then 2 else 1
    case SelfDestruct(Waiting, _) => 5
    case SelfDestruct(Transmitting, _) => 4
    case SelfDestruct(Removing, _) => 3
    case LearnMode => 3
    case LearnModeStarted => 3
    case WaitForSecureLearn => 1
    case _ => 0
  }

  class Machine {
    var nms: Nm

    constructor (client: nat)
      ensures nms.state.NmIdle? && !nms.locked && !Unfinished(nms) && nms.latch == BOOT_LATCH
    {
      nms := Nm(NmIdle, NO_FLAGS, NoCommand, client, false, BOOT_LATCH, 0, SILENT, 0);
    }

    /** nm_fsm_post_event. */
    method PostEvent(ev: Event, e: Env)
      modifies this
      ensures nms == Post(old(nms), ev, e)
      decreases Rank(nms.state, ev), 2
    {
      var st := nms.state;
      if st.SelfDestruct? {
        WhenSelfDestruct(ev, e);
      } else if st.LearnMode? || st.LearnModeStarted? {
        WhenLearning(ev, e);
      } else if st.NmIdle? || st.Busy? || Learnish(st) {
        nms := Post(nms, ev, e);
      } else {
        WhenAdding(ev, e);
      }
    }

    // The events that reactions post to the machine they are part of.

    method PostSecurityDone(bad: bool, s2: bool, e: Env)
      requires nms.state.WaitForSecureAdd?
      modifies this
      ensures nms == SecureAddEnds(old(nms), bad, s2)
      decreases 1, 3
    {
      PostEvent(SecurityDone(bad, s2), e);
    }

    method PostAddStop(e: Env)
      requires nms.state.WaitForSecureAdd?
      modifies this
      ensures nms == SecureAddEnds(old(nms), true, false)
      decreases 1, 3
    {
      PostEvent(AddStop, e);
    }

    method PostLearned(bad: bool, s2: bool, e: Env)
      requires nms.state.WaitForSecureLearn?
      modifies this
      ensures nms == old(nms).(state := WaitForMdns)
      decreases 1, 3
    {
      PostEvent(SecurityDone(bad, s2), e);
    }

    method PostAddFailed(e: Env)
      requires nms.state.NodeFound?
      modifies this
      ensures nms == Say(OnNodeFound(old(nms), AddFailed), e)
      decreases 3, 3
    {
      PostEvent(AddFailed, e);
    }

    method PostNodeAdded(valid: bool, e: Env)
      requires nms.state.NodeFound?
      modifies this
      ensures nms == Say(OnNodeFound(old(nms), NodeAdded(valid)), e)
      decreases 4, 3
    {
      PostEvent(NodeAdded(valid), e);
    }

    method PostStatusDone(e: Env)
      requires nms.state.WaitForProtocol? || nms.state.NodeFound? || nms.state.NmIdle?
      modifies this
      ensures nms == if old(nms.state).WaitForProtocol? then AddEnds(old(nms), e) else old(nms)
      decreases 3, 3
    {
      PostEvent(AddStatusDone, e);
    }

    method PostReplaceDone(e: Env)
      requires nms.state.ReplaceFailedReq?
      modifies this
      ensures nms == Joined(old(nms), e)
      decreases 3, 3
    {
      PostEvent(ReplaceDone, e);
    }

    method PostProxyComplete(e: Env)
      requires nms.state.WaitForSucInclusion?
      modifies this
      ensures nms == OnWaitForSucInclusion(old(nms), ProxyComplete, e)
      decreases 3, 3
    {
      PostEvent(ProxyComplete, e);
    }

    method PostTxDone(retry: bool, e: Env)
      requires nms.state == SelfDestruct(Transmitting, retry)
      modifies this
      ensures nms == Say(RemovalStarts(old(nms), retry, e), e)
      decreases 4, 3
    {
      PostEvent(SelfDestructTxDone, e);
    }

    method PostNotRemoved(retry: bool, e: Env)
      requires nms.state == SelfDestruct(Removing, retry)
      modifies this
      ensures nms == Say(RemovalFailed(old(nms), retry), e)
      decreases 3, 3
    {
      PostEvent(SelfDestructNotRemoved, e);
    }

    method WhenAdding(ev: Event, e: Env)
      requires !nms.state.NmIdle? && !nms.state.Busy? && !nms.state.SelfDestruct? && !Learnish(nms.state)
      modifies this
      ensures nms == Say(OnAdd(old(nms), ev, e), e)
      decreases Rank(nms.state, ev), 1
    {
      var st := nms.state;
      if st.NodeFound? {
        WhenNodeFound(ev, e);
      } else if st.WaitForProtocol? {
        WhenWaitForProtocol(ev, e);
      } else if st.ReplaceFailedReq? {
        WhenReplaceFailedReq(ev, e);
      } else if st.ProxyInclusionWaitNif? {
        WhenProxyWaitNif(ev, e);
      } else if st.PrepareSucInclusion? || st.WaitForSucInclusion? {
        WhenSucInclusion(ev, e);
      } else if st.WaitForSecureAdd? {
        WhenWaitForSecureAdd(ev, e);
      } else {
        nms := Say(OnAdd(nms, ev, e), e);
      }
    }

    /** An unusable node posts the failure to the machine itself. */
    method WhenNodeFound(ev: Event, e: Env)
      requires nms.state.NodeFound?
      modifies this
      ensures nms == Say(OnNodeFound(old(nms), ev), e)
      decreases Rank(nms.state, ev), 0
    {
      if ev.NodeAdded? {
        if ev.valid {
          nms := nms.(state := WaitForProtocol);
        } else {
          PostAddFailed(e);
        }
      } else if ev.AddFailed? || ev.Timeout? {
        nms := Say(AddFails(nms), e);
      }
    }

    /** The tail of a join shared by add and replace; the insecure outcome is posted as an event. */
    method Join(e: Env)
      requires nms.state.WaitForSecureAdd?
      modifies this
      ensures nms == Joined(old(nms), e)
      decreases 2, 0
    {
      nms := nms.(locked := true);
      if e.sucIncludes {
        nms := nms.(state := PrepareSucInclusion);
        return;
      }
      if nms.flags.s2Add && e.wantsS2 {
        return;
      }
      if e.wantsS0 {
        return;
      }
      PostSecurityDone(false, false, e);
    }

    method EndAdd(e: Env)
      requires nms.state.WaitForProtocol?
      modifies this
      ensures nms == AddEnds(old(nms), e)
      decreases 2, 1
    {
      nms := nms.(radio := NoAdding(nms));
      nms := nms.(state := WaitForSecureAdd);
      if e.nodeKnown && !nms.flags.proxy {
        PostSecurityDone(e.knownBad, e.hasS2, e);
      } else {
        Join(e);
      }
    }

    method WhenWaitForProtocol(ev: Event, e: Env)
      requires nms.state.WaitForProtocol?
      modifies this
      ensures nms == Say(OnWaitForProtocol(old(nms), ev, e), e)
      decreases Rank(nms.state, ev), 0
    {
      if ev.AddStatusDone? {
        EndAdd(e);
      } else {
        nms := Say(OnWaitForProtocol(nms, ev, e), e);
      }
    }

    method WhenReplaceFailedReq(ev: Event, e: Env)
      requires nms.state.ReplaceFailedReq?
      modifies this
      ensures nms == Say(OnReplaceFailedReq(old(nms), ev, e), e)
      decreases Rank(nms.state, ev), 0
    {
      if ev.ReplaceDone? {
        nms := nms.(state := WaitForSecureAdd);
        Join(e);
      } else {
        nms := Say(OnReplaceFailedReq(nms, ev, e), e);
      }
    }

    method ProxyAdd(valid: bool, e: Env)
      requires nms.state.NodeFound?
      modifies this
      ensures nms == Say(ProxyAdds(old(nms), valid, e), e)
      decreases 4, 4
    {
      PostNodeAdded(valid, e);
      PostStatusDone(e);
    }

    method ProxyNodeInfo(valid: bool, e: Env)
      requires nms.state.ProxyInclusionWaitNif?
      modifies this
      ensures nms == Say(OnProxyWaitNif(old(nms), NodeInfo(valid), e), e)
      decreases 4, 5
    {
      var s := nms.(flags := NO_FLAGS.(s2Add := true, proxy := true));
      if s.cmd == NodeAdd {
        nms := s.(state := NodeFound);
        ProxyAdd(valid, e);
      } else {
        nms := s.(state := ReplaceFailedReq);
        PostReplaceDone(e);
      }
    }

    /** Proxy inclusion plays the radio's part and posts the events of an add or a replace itself. */
    method WhenProxyWaitNif(ev: Event, e: Env)
      requires nms.state.ProxyInclusionWaitNif?
      modifies this
      ensures nms == Say(OnProxyWaitNif(old(nms), ev, e), e)
      decreases Rank(nms.state, ev), 0
    {
      if ev.Timeout? {
        nms := nms.(state := NmIdle);
      } else if ev.NodeInfo? {
        ProxyNodeInfo(ev.valid, e);
      }
    }

    method WhenSucInclusion(ev: Event, e: Env)
      requires nms.state.PrepareSucInclusion? || nms.state.WaitForSucInclusion?
      modifies this
      ensures old(nms.state).PrepareSucInclusion? ==> nms == OnPrepareSucInclusion(old(nms), ev, e)
      ensures old(nms.state).WaitForSucInclusion? ==> nms == OnWaitForSucInclusion(old(nms), ev, e)
      decreases Rank(nms.state, ev), 0
    {
      if nms.state.PrepareSucInclusion? {
        if ev.Timeout? {
          nms := nms.(state := WaitForSucInclusion);
          if e.handoverRefused {
            PostProxyComplete(e);
          }
        }
      } else if ev.ProxyComplete? {
        nms := nms.(state := WaitForSecureAdd);
        PostSecurityDone(false, e.hasS2, e);
      }
    }

    method WhenWaitForSecureAdd(ev: Event, e: Env)
      requires nms.state.WaitForSecureAdd?
      modifies this
      ensures nms == OnWaitForSecureAdd(old(nms), ev)
      decreases Rank(nms.state, ev), 0
    {
      if ev.Timeout? {
        PostAddStop(e);
      } else {
        nms := OnWaitForSecureAdd(nms, ev);
      }
    }

    method WhenSelfDestruct(ev: Event, e: Env)
      requires nms.state.SelfDestruct?
      modifies this
      ensures nms == Say(OnSelfDestruct(old(nms), ev, e), e)
      decreases Rank(nms.state, ev), 0
    {
      var retry := nms.state.retry;
      if nms.state.stage.Removing? {
        nms := Say(OnRemoving(nms, retry, ev), e);
      } else if nms.state.stage.Transmitting? {
        if ev.SelfDestructTxDone? {
          nms := nms.(state := SelfDestruct(Removing, retry), radio := Taken(nms.radio, false, e.started));
          if !e.started {
            PostNotRemoved(retry, e);
          }
        }
      } else if ev.Timeout? {
        nms := nms.(state := SelfDestruct(Transmitting, retry));
        if !e.accepted {
          PostTxDone(retry, e);
        }
      }
    }

    method WhenLearning(ev: Event, e: Env)
      requires nms.state.LearnMode? || nms.state.LearnModeStarted?
      modifies this
      ensures nms == Say(OnLearn(old(nms), ev, e), e)
      decreases Rank(nms.state, ev), 0
    {
      if ev.LearnDone? {
        LearnModeDone(e);
      } else {
        nms := Say(OnLearn(nms, ev, e), e);
      }
    }

    /** LearnModeStatus(LEARN_MODE_DONE): an exclusion and a replication simulate the security outcome. */
    method LearnModeDone(e: Env)
      requires nms.state.LearnMode? || nms.state.LearnModeStarted?
      modifies this
      ensures nms == LearnEnds(old(nms), e)
      decreases 2, 0
    {
      nms := nms.(state := WaitForSecureLearn);
      if e.excluded {
        PostLearned(false, false, e);
        nms := nms.(state := SetDefault);
      } else if !e.newNetwork {
        nms := nms.(flags := nms.flags.(replication := true));
        PostLearned(e.knownBad, e.hasS2, e);
      }
    }

    // ------------------------------------------------------------------ entry points

    /** NetworkManagementCommandHandler_internal, for a client that is admitted. */
    method CommandHandler(client: nat, ev: Event, e: Env)
      requires Admits(nms, client)
      modifies this
      ensures nms == Post(Engage(old(nms), client), ev, e)
    {
      nms := Engage(nms, client);
      PostEvent(ev, e);
    }

    /** RemoveSelfDestructStatus is the one direct callback that posts an event. */
    method RemovalAnswered(success: bool, e: Env)
      modifies this
      ensures nms == Say(FailedAnswered(old(nms), success, e), e)
    {
      var mine := nms.radio.failed.mine;
      nms := nms.(radio := nms.radio.(failed := Served(nms.radio.failed)));
      if mine {
        nms := SendReply(nms, e);
      } else if nms.state.SelfDestruct? {
        WhenSelfDestruct(if success then SelfDestructRemoved else SelfDestructNotRemoved, e);
      }
    }

    method RadioCallback(ev: Event, e: Env)
      modifies this
      ensures nms == Say(MoveOf(old(nms), ev, e), e)
    {
      if ev.OperationDone? && ev.op.FailNodeRemoval? {
        RemovalAnswered(ev.success, e);
      } else if Direct(ev) {
        nms := Say(OnDirect(nms, ev, e), e);
      } else {
        nms := Delivered(nms, ev, e);
        PostEvent(ev, e);
      }
    }

    /** Every way into the module, with the laws each keeps: the lock, the peer, the outcome of an inclusion and
        the latch. */
    method Handle(inp: Input, e: Env)
      modifies this
      ensures nms == Step(old(nms), inp, e)
      ensures LockInv(old(nms)) && RadioKeeps(old(nms), inp) ==> LockHeld(nms)
      ensures !old(nms).state.NmIdle? ==> nms.peer == old(nms).peer
      ensures !old(nms).state.SelfDestruct? ==> Treated(old(nms), OutcomeAt(old(nms), inp, e), nms)
      ensures nms.latch == Marked(old(nms).latch, NoteOf(old(nms), inp, e))
    {
      ghost var was := nms;
      Dispatch(inp, e);
      if LockInv(was) && RadioKeeps(was, inp) {
        StepKeepsLock(was, inp, e);
      }
      if !was.state.NmIdle? {
        PeerIsFixed(was, inp, e);
      }
      if !was.state.SelfDestruct? {
        InclusionEnds(was, inp, e);
      }
      StepLatch(was, inp, e);
    }

    method Dispatch(inp: Input, e: Env)
      modifies this
      ensures nms == Step(old(nms), inp, e)
    {
      if inp.FromPeer? {
        if FromClient(inp.ev) && Admits(nms, inp.peer) {
          CommandHandler(inp.peer, inp.ev, e);
        }
      } else if inp.Happens? {
        if !FromClient(inp.ev) {
          RadioCallback(inp.ev, e);
        }
      } else if inp.UpdateStatus? {
        nms := Say(Update(nms, inp.dhcp, inp.probe, inp.virtual, e), e);
      } else if nms.replies > 0 {
        nms := nms.(replies := nms.replies - 1);
        nms := Reset(nms, e);
      }
    }

    /** A whole run of the machine. Booted, with a radio that keeps to what it was asked and no completion
        outstanding while a session can take the lock, it ends with the lock free whenever it ends idle. A run
        inside one session keeps the peer. A machine that ends up destroying a node was including it by smart
        start, and the inclusion failed. */
    method Drive(h: seq<Happening>)
      modifies this
      ensures nms == Run(old(nms), h)
      ensures Booted(old(nms)) && Fair(old(nms), h) && Careful(old(nms), h) && nms.state.NmIdle? ==> !nms.locked
      ensures InSession(old(nms), h) ==> nms.peer == old(nms).peer
      ensures Clean(old(nms)) && old(nms).state.NmIdle? && nms.state.SelfDestruct? ==>
                exists k, d :: 0 <= k < d < |h| && SmartSince(old(nms), h, k, |h|) &&
                               OutcomeAt(At(old(nms), h, d), h[d].inp, h[d].e).Bad?
      ensures nms.latch == After(old(nms).latch, Notes(old(nms), h, |h|))
    {
      var i := 0;
      while i < |h|
        invariant 0 <= i <= |h|
        invariant Run(nms, h[i..]) == Run(old(nms), h)
      {
        assert h[i..][0] == h[i] && h[i..][1..] == h[i + 1..];
        Handle(h[i].inp, h[i].e);
        i := i + 1;
      }
      DriveLaws(old(nms), h);
    }
  }

  lemma DriveLaws(s: Nm, h: seq<Happening>)
    ensures Booted(s) && Fair(s, h) && Careful(s, h) && Run(s, h).state.NmIdle? ==> !Run(s, h).locked
    ensures InSession(s, h) ==> Run(s, h).peer == s.peer
    ensures Clean(s) && s.state.NmIdle? && Run(s, h).state.SelfDestruct? ==>
              exists k, d :: 0 <= k < d < |h| && SmartSince(s, h, k, |h|) &&
                             OutcomeAt(At(s, h, d), h[d].inp, h[d].e).Bad?
    ensures Run(s, h).latch == After(s.latch, Notes(s, h, |h|))
  {
    assert h[..|h|] == h;
    if Booted(s) && Fair(s, h) && Careful(s, h) {
      IdleMeansUnlocked(s, h);
    }
    if InSession(s, h) {
      SessionPeer(s, h);
    }
    if Clean(s) && s.state.NmIdle? && Run(s, h).state.SelfDestruct? {
      var k, d := SelfDestructIsEarned(s, h, |h|);
    }
    RunLatch(s, h, |h|);
  }
}
