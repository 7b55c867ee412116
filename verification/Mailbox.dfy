/** The mailbox's wake-up sweep in local service mode (src/Mailbox.c): when a sleeping node reports in,
    every frame queued for it is offered in turn, frames sent are freed, and the node is then put back
    to sleep. Completions may arrive later or from inside the call that offers the frame. */
module Mailbox {
  import opened Lists

  const MAX_ENTRIES: nat := 2000

  datatype Status = TxOk | TxFail | TxError

  /** A queued frame: its destination node and its more-information bit; id tells frames apart. */
  datatype Frame = Frame(id: nat, node: nat, moreInfo: bool)

  datatype MbState = Idle | ProbeWakeUpInterval | Sending | SendNoMoreInfo | SendNoMoreInfoDelayed

  /** What became of a frame the cursor has passed. */
  datatype Fate = Skipped | Sent | Failed
  datatype Visit = Visit(frame: Frame, fate: Fate)

  /** Why the visits of a sweep ended: no frame was left, the transport refused one, or the node is not
      in the node database and no frame was tried. */
  datatype Ending = NotYet | OutOfFrames | FrameRefused | UnknownNode

  // -------------------------------------------------------- the story of a sweep

  function Frames(done: seq<Visit>): seq<Frame> {
    if done == [] then [] else Frames(done[..|done| - 1]) + [done[|done| - 1].frame]
  }

  /** Frames still queued after the visits, in order. */
  function Kept(done: seq<Visit>): seq<Frame> {
    if done == [] then [] else
    Kept(done[..|done| - 1]) + if done[|done| - 1].fate == Sent then [] else [done[|done| - 1].frame]
  }

  /** Frames handed to the transport during the visits, in order. */
  function Offered(done: seq<Visit>): seq<Frame> {
    if done == [] then [] else
    Offered(done[..|done| - 1]) + if done[|done| - 1].fate == Skipped then [] else [done[|done| - 1].frame]
  }

  function Freed(done: seq<Visit>): seq<Frame> {
    if done == [] then [] else
    Freed(done[..|done| - 1]) + if done[|done| - 1].fate == Sent then [done[|done| - 1].frame] else []
  }

  function ForNode(frames: seq<Frame>, node: nat): seq<Frame> {
    Where(frames, (f: Frame) => f.node == node)
  }

  /** A frame is passed over exactly when it is for another node. */
  ghost predicate Faithful(done: seq<Visit>, node: nat) {
    forall i :: 0 <= i < |done| ==> (done[i].fate == Skipped <==> done[i].frame.node != node)
  }

  /** Some of the frames has its more-information bit set. */
  ghost predicate MoreToCome(frames: seq<Frame>) {
    exists f :: f in frames && f.moreInfo
  }

  lemma OneMore(frames: seq<Frame>, f: Frame)
    ensures MoreToCome(frames + [f]) <==> MoreToCome(frames) || f.moreInfo
  {
    if MoreToCome(frames) {
      var g :| g in frames && g.moreInfo;
      assert g in frames + [f];
    } else if f.moreInfo {
      assert f in frames + [f];
    }
  }

  /** Faithful visits offer exactly the node's frames among those visited, once each and in queue order. */
  lemma {:induction false} OffersExactly(done: seq<Visit>, node: nat)
    requires Faithful(done, node)
    ensures Offered(done) == ForNode(Frames(done), node)
  {
    if done != [] {
      OffersExactly(done[..|done| - 1], node);
      WhereAppend(Frames(done[..|done| - 1]), [done[|done| - 1].frame], (f: Frame) => f.node == node);
      WhereOne(done[|done| - 1].frame, (f: Frame) => f.node == node);
    }
  }

  /** A frame for the node that is not yet visited is the next of its frames after those offered. */
  lemma NextOffer(done: seq<Visit>, tail: seq<Frame>, node: nat)
    requires Faithful(done, node) && tail != [] && tail[0].node == node
    ensures Offered(done) + [tail[0]] <= ForNode(Frames(done) + tail, node)
  {
    var p := (f: Frame) => f.node == node;
    OffersExactly(done, node);
    WhereAppend(Frames(done), tail, p);
    WhereAppend([tail[0]], tail[1..], p);
    WhereOne(tail[0], p);
    assert tail == [tail[0]] + tail[1..];
  }

  /** Nothing is lost or made up: the frames visited are the frames kept and the frames freed, and a
      freed frame was offered. */
  lemma {:induction false} KeptAndFreed(done: seq<Visit>)
    ensures multiset(Frames(done)) == multiset(Kept(done)) + multiset(Freed(done))
    ensures forall f :: f in Freed(done) ==> f in Offered(done)
  {
    if done != [] {
      KeptAndFreed(done[..|done| - 1]);
    }
  }

  lemma {:induction false} FramesLength(done: seq<Visit>)
    ensures |Frames(done)| == |done|
  {
    if done != [] {
      FramesLength(done[..|done| - 1]);
    }
  }

  /** Passing one more frame: the queue and the arrivals split one place further on. */
  lemma PassOne(done: seq<Visit>, tail: seq<Frame>, v: Visit, node: nat)
    requires tail != [] && v.frame == tail[0]
    requires Faithful(done, node) && (v.fate == Skipped <==> v.frame.node != node)
    ensures Faithful(done + [v], node)
    ensures Frames(done + [v]) + tail[1..] == Frames(done) + tail
    ensures var k, list := |Kept(done)|, Kept(done) + tail;
      && list[k] == tail[0]
      && Kept(done + [v]) + tail[1..] == (if v.fate == Sent then list[..k] + list[k + 1..] else list)
      && |Kept(done + [v])| == if v.fate == Sent then k else k + 1
  {
    assert (done + [v])[..|done|] == done;
    var k, list := |Kept(done)|, Kept(done) + tail;
    assert list[..k] == Kept(done) && list[k + 1..] == tail[1..];
  }

  // ------------------------------------------------------------------- the code

  /** What the mailbox has asked for: No More Information frames and wake-up interval requests handed to the
      transport, starts of the timer that delays the end, ZIP_EVENT_QUEUE_UPDATED events posted. */
  datatype Counts = Counts(noMore: nat, intervalGets: nat, timers: nat, updates: nat)

  /** What a sweep has done: its visits, the queued frames it has not passed, everything that was queued
      when it began or has been since, and how its visits ended, with the arrivals by then; and what it was told:
      whether the node is in the database and its wake-up unexpected, the transport's answer to each frame
      offered, true if it took it, and what had been asked for before it. */
  datatype Sweep = Sweep(
    done: seq<Visit>, tail: seq<Frame>, arrived: seq<Frame>, ending: Ending, visitable: nat,
    known: bool, unexpected: bool, answers: seq<bool>, before: Counts, broadcast: bool)

  /** The end of the sweep is put off: it ran out of frames and some frame offered announced more. */
  ghost predicate Late(sw: Sweep) {
    sw.ending == OutOfFrames && MoreToCome(Offered(sw.done))
  }

  class Box {
    var state: MbState
    var node: nat
    var sendNoMore: bool
    var broadcastWun: bool
    var txStatus: Status
    var lastEntry: nat           // position in the list; meaningful while frames are being sent
    var list: seq<Frame>
    var inUse: nat
    var out: Counts
    ghost var sweep: Sweep       // the sweep in progress, or the last one

    /** What arrived is what was visited and what was not; the queue is what was kept and what was not
        visited. */
    ghost predicate Story()
      reads this
    {
      && sweep.arrived == Frames(sweep.done) + sweep.tail && list == Kept(sweep.done) + sweep.tail
      && Faithful(sweep.done, node)
      && inUse == |list|
    }

    /** The frames offered were all taken by the transport. */
    ghost predicate AllTaken(n: nat)
      reads this
    {
      |sweep.answers| == n && false !in sweep.answers
    }

    /** The visits have ended. When they ran out of frames, every frame that had arrived by then was
        visited and every frame offered was taken; when a frame was refused, it was the last one offered, is the
        first one not visited and is for the node; and no frame was offered exactly if the node is unknown. */
    ghost predicate VisitsOver()
      reads this
    {
      && Story()
      && match sweep.ending
         case NotYet => false
         case OutOfFrames => sweep.known && |sweep.done| == sweep.visitable && AllTaken(|Offered(sweep.done)|)
         case FrameRefused =>
           && sweep.known && sweep.tail != [] && sweep.tail[0].node == node
           && |sweep.answers| == |Offered(sweep.done)| + 1 && !sweep.answers[|Offered(sweep.done)|]
           && false !in sweep.answers[..|Offered(sweep.done)|]
         case UnknownNode => !sweep.known && sweep.done == [] && sweep.answers == []
    }

    /** What was asked for since the sweep began. */
    ghost predicate Tally(noMore: nat, updates: nat, late: bool)
      reads this
    {
      && out.noMore == sweep.before.noMore + noMore
      && out.intervalGets == sweep.before.intervalGets + (if sweep.known && sweep.unexpected then 1 else 0)
      && (if late then out.timers > sweep.before.timers else out.timers == sweep.before.timers)
      && out.updates == sweep.before.updates + updates + (if late then 1 else 0)
    }

    /** A known node's frames are being visited. */
    ghost predicate Visiting()
      reads this
    {
      Story() && sweep.known && sweep.ending == NotYet && Tally(0, 0, false) && broadcastWun == sweep.broadcast
    }

    ghost predicate Resting()
      reads this
    {
      match state
      case Idle => inUse == |list|
      case ProbeWakeUpInterval => Visiting() && sweep.done == [] && AllTaken(0) && sendNoMore && sweep.unexpected
      case Sending =>
        && Visiting() && sweep.tail != [] && sweep.tail[0].node == node && lastEntry == |Kept(sweep.done)|
        && AllTaken(|Offered(sweep.done)| + 1)
        && sendNoMore == !MoreToCome(Offered(sweep.done) + [sweep.tail[0]])
      case SendNoMoreInfoDelayed =>
        VisitsOver() && Late(sweep) && Tally(0, 0, true) && broadcastWun == sweep.broadcast
      case SendNoMoreInfo => VisitsOver() && Tally(1, 0, Late(sweep)) && !sweep.broadcast
    }

    /** The sweep is over: one No More Information has gone out, none after a broadcast wake-up. */
    ghost predicate Finished()
      reads this
    {
      state == Idle && VisitsOver() && Tally(if sweep.broadcast then 0 else 1, 1, Late(sweep))
    }

    /** When the visits run out of frames, they have reached the last that has arrived. */
    ghost predicate Complete()
      reads this
    {
      sweep.ending == OutOfFrames ==> sweep.visitable == |sweep.arrived|
    }

    twostate predicate SameSweep()
      reads this
    {
      && node == old(node) && sweep.arrived == old(sweep.arrived) && old(sweep.done) <= sweep.done
      && old(sweep.answers) <= sweep.answers
      && sweep == old(sweep).(done := sweep.done, tail := sweep.tail, ending := sweep.ending,
                              visitable := sweep.visitable, answers := sweep.answers)
    }

    method FreeEntry(k: nat)
      requires k < |list| && inUse == |list|
      modifies this`list, this`inUse
      ensures list == old(list)[..k] + old(list)[k + 1..] && inUse == |list|
    {
      list := list[..k] + list[k + 1..];
      inUse := inUse - 1;
    }

    // MB_STATE_SEND_NO_MORE_INFO

    method NoMoreInfoDone()
      requires state == SendNoMoreInfo && VisitsOver()
      requires Tally(if sweep.broadcast then 0 else 1, 0, Late(sweep))
      modifies this`state, this`out
      ensures Finished() && out.timers == old(out.timers)
    {
      state := Idle;
      out := out.(updates := out.updates + 1);
    }

    method SendNoMoreInformation()
      requires state == SendNoMoreInfo && VisitsOver() && Tally(0, 0, Late(sweep)) && broadcastWun == sweep.broadcast
      modifies this`state, this`out, this`broadcastWun, this`txStatus
      ensures Finished() || (state == SendNoMoreInfo && Resting())
      ensures out.timers == old(out.timers) && !broadcastWun
    {
      if !broadcastWun {
        out := out.(noMore := out.noMore + 1);
        var accepted: bool := *;
        if !accepted {
          txStatus := TxFail;
          NoMoreInfoDone();
        }
      } else {
        broadcastWun := false;
        txStatus := TxOk;
        NoMoreInfoDone();
      }
    }

    // MB_STATE_SENDING

    /** Moves the cursor past another node's frame. */
    method Skip()
      requires Story() && lastEntry == |Kept(sweep.done)| && sweep.tail != [] && sweep.tail[0].node != node
      modifies this`lastEntry, this`sweep
      ensures Story() && lastEntry == |Kept(sweep.done)| && lastEntry == old(lastEntry) + 1
      ensures sweep == old(sweep).(done := old(sweep.done) + [Visit(old(sweep.tail)[0], Skipped)],
                                   tail := old(sweep.tail)[1..])
      ensures Offered(sweep.done) == Offered(old(sweep.done))
    {
      PassOne(sweep.done, sweep.tail, Visit(sweep.tail[0], Skipped), node);
      sweep := sweep.(done := sweep.done + [Visit(sweep.tail[0], Skipped)], tail := sweep.tail[1..]);
      lastEntry := lastEntry + 1;
    }

    /** Moves the cursor on to the node's next frame. */
    method FindNext()
      requires Story() && lastEntry == |Kept(sweep.done)|
      modifies this`lastEntry, this`sweep
      ensures Story() && lastEntry == |Kept(sweep.done)| && SameSweep()
      ensures sweep.tail != [] ==> sweep.tail[0].node == node
      ensures sweep == old(sweep).(done := sweep.done, tail := sweep.tail)
      ensures Offered(sweep.done) == Offered(old(sweep.done)) && |sweep.tail| <= old(|sweep.tail|)
    {
      while lastEntry < |list|
        invariant Story() && lastEntry == |Kept(sweep.done)| && SameSweep()
        invariant |sweep.tail| <= old(|sweep.tail|) && Offered(sweep.done) == Offered(old(sweep.done))
        invariant sweep == old(sweep).(done := sweep.done, tail := sweep.tail)
        decreases |list| - lastEntry
      {
        assert list[lastEntry] == sweep.tail[0];
        if list[lastEntry].node == node {
          break;
        }
        Skip();
      }
    }

    /** Hands the frame at the cursor to the transport. */
    method Offer() returns (accepted: bool)
      requires state == Sending && Visiting() && lastEntry == |Kept(sweep.done)| && AllTaken(|Offered(sweep.done)|)
      requires sweep.tail != [] && sweep.tail[0].node == node && sendNoMore == !MoreToCome(Offered(sweep.done))
      modifies this`sendNoMore, this`sweep
      ensures sweep == old(sweep).(answers := old(sweep.answers) + [accepted])
      ensures accepted ==> Resting()
    {
      OneMore(Offered(sweep.done), sweep.tail[0]);
      if list[lastEntry].moreInfo {
        sendNoMore := false;
      }
      accepted := *;
      sweep := sweep.(answers := sweep.answers + [accepted]);
    }

    /** The transport has refused a frame: the node is put to sleep at once. */
    method GiveUp()
      requires state == Sending && Visiting() && sweep.tail != [] && sweep.tail[0].node == node
      requires |sweep.answers| == |Offered(sweep.done)| + 1 && !sweep.answers[|Offered(sweep.done)|]
      requires false !in sweep.answers[..|Offered(sweep.done)|]
      modifies this`state, this`out, this`broadcastWun, this`txStatus, this`sweep
      ensures Finished() || (state == SendNoMoreInfo && Resting())
      ensures sweep == old(sweep).(ending := FrameRefused)
    {
      state, sweep := SendNoMoreInfo, sweep.(ending := FrameRefused);
      SendNoMoreInformation();
    }

    /** Offers the node's next frame, or ends the visits. The transport may refuse it, complete it later,
        or complete it at once: the completion then recurses, each time closer to the end of the list. */
    method SendNext()
      requires state == Sending && Visiting() && lastEntry == |Kept(sweep.done)| && AllTaken(|Offered(sweep.done)|)
      requires sendNoMore == !MoreToCome(Offered(sweep.done))
      modifies this
      ensures SameSweep() && (Finished() || (state != Idle && Resting())) && Complete()
      ensures state != ProbeWakeUpInterval && |sweep.tail| <= old(|sweep.tail|)
      decreases |sweep.tail|, 1
    {
      FindNext();
      if lastEntry < |list| {
        var accepted := Offer();
        var immediately: bool := *;
        if !accepted {
          GiveUp();
        } else if immediately {
          var status: Status := *;
          FrameDone(status);
        }
      } else {
        RunOut();
      }
    }

    /** No frame is left: the node is put to sleep now, or later exactly if a frame offered to it announced more. */
    method RunOut()
      requires state == Sending && Visiting() && sweep.tail == [] && AllTaken(|Offered(sweep.done)|)
      requires sendNoMore == !MoreToCome(Offered(sweep.done))
      modifies this`state, this`out, this`broadcastWun, this`txStatus, this`sweep
      ensures Finished() || (state != Idle && Resting())
      ensures state == SendNoMoreInfoDelayed <==> MoreToCome(Offered(sweep.done))
      ensures out.timers == old(out.timers) + if state == SendNoMoreInfoDelayed then 1 else 0
      ensures state != ProbeWakeUpInterval && state != Sending && Complete()
      ensures sweep == old(sweep).(ending := OutOfFrames, visitable := |old(sweep.done)|)
    {
      FramesLength(sweep.done);
      sweep := sweep.(ending := OutOfFrames, visitable := |sweep.done|);
      if sendNoMore {
        state := SendNoMoreInfo;
        SendNoMoreInformation();
      } else {
        state := SendNoMoreInfoDelayed;
        out := out.(timers := out.timers + 1, updates := out.updates + 1);
      }
    }

    /** Moves past the completed frame at the cursor, freeing it if it was sent. */
    method PassCursor(status: Status)
      requires Story() && sweep.tail != [] && sweep.tail[0].node == node && lastEntry == |Kept(sweep.done)|
      modifies this`txStatus, this`lastEntry, this`list, this`inUse, this`sweep
      ensures Story() && lastEntry == |Kept(sweep.done)| && |sweep.tail| < old(|sweep.tail|) && txStatus == status
      ensures sweep == old(sweep).(tail := sweep.tail,
        done := old(sweep.done) + [Visit(old(sweep.tail)[0], if status == TxOk then Sent else Failed)])
      ensures Offered(sweep.done) == Offered(old(sweep.done)) + [old(sweep.tail)[0]]
    {
      ghost var v := Visit(sweep.tail[0], if status == TxOk then Sent else Failed);
      ghost var done, tail := sweep.done + [v], sweep.tail[1..];
      PassOne(sweep.done, sweep.tail, v, node);
      assert Frames(done) + tail == sweep.arrived;
      txStatus := status;
      var mb := lastEntry;
      lastEntry := lastEntry + 1;
      if txStatus == TxOk {
        FreeEntry(mb);
        lastEntry := lastEntry - 1;
      }
      assert list == Kept(done) + tail && lastEntry == |Kept(done)|;
      sweep := sweep.(done := done, tail := tail);
    }

    /** A frame's completion, later or from inside the call that offered it. */
    method FrameDone(status: Status)
      requires state == Sending && Resting()
      modifies this
      ensures SameSweep() && (Finished() || (state != Idle && Resting())) && Complete()
      ensures |sweep.done| > old(|sweep.done|) &&
        sweep.done[old(|sweep.done|)] == Visit(old(sweep.tail)[0], if status == TxOk then Sent else Failed)
      ensures state != ProbeWakeUpInterval && |sweep.tail| < old(|sweep.tail|)
      decreases |sweep.tail|, 0
    {
      PassCursor(status);
      SendNext();
    }

    /** Entry into MB_STATE_SENDING: the cursor starts at the head of the list. */
    method StartSending()
      requires Visiting() && sweep.done == [] && AllTaken(0) && sendNoMore
      modifies this
      ensures SameSweep() && (Finished() || (state != Idle && Resting())) && Complete()
      ensures state != ProbeWakeUpInterval
    {
      state := Sending;
      lastEntry := 0;
      SendNext();
    }

    // MB_STATE_PROBE_WAKEUP_INTERVAL

    /** The wake-up interval request has been answered, or could not be sent. */
    method ProbeDone()
      requires state == ProbeWakeUpInterval && Resting()
      modifies this
      ensures SameSweep() && (Finished() || (state != Idle && Resting())) && Complete()
      ensures state != ProbeWakeUpInterval
    {
      StartSending();
    }

    /** A node reports in. Nothing happens while network management is busy, a probe runs or another sweep
        is in progress; otherwise the sweep starts with the frames then queued. A node that is not in the database
        is offered nothing; one whose wake-up is unexpected is asked for its interval first, and what it answers is
        waited for if the request could be sent. */
    method WakeupEvent(n: nat, isBroadcast: bool, busy: bool, known: bool, unexpected: bool, asked: bool)
      requires n != 0 && Resting()
      modifies this
      ensures busy || old(state) != Idle ==>
        && state == old(state) && Resting() && list == old(list) && sweep == old(sweep) && out == old(out)
      ensures !busy && old(state) == Idle ==>
        && node == n && sweep.broadcast == isBroadcast && sweep.before == old(out)
        && sweep.known == known && sweep.unexpected == unexpected && sweep.arrived == old(list)
        && (Finished() || (state != Idle && Resting())) && Complete()
        && (state == ProbeWakeUpInterval <==> known && unexpected && asked)
    {
      if busy || state != Idle {
        return;
      }
      node, sendNoMore, broadcastWun := n, true, isBroadcast;
      sweep := Sweep([], list, list, NotYet, 0, known, unexpected, [], out, isBroadcast);
      if known {
        if unexpected {
          state := ProbeWakeUpInterval;
          out := out.(intervalGets := out.intervalGets + 1);
          if !asked {
            ProbeDone();
          }
        } else {
          StartSending();
        }
      } else {
        state, sweep := SendNoMoreInfo, sweep.(ending := UnknownNode);
        SendNoMoreInformation();
      }
    }

    // callbacks that arrive on their own

    method NoMoreTimerExpires(inProbe: bool)
      requires state == SendNoMoreInfoDelayed && Resting()
      modifies this`state, this`out, this`broadcastWun, this`txStatus
      ensures out.timers == old(out.timers) + if inProbe then 1 else 0
      ensures if inProbe then state == old(state) && Resting() else Finished() || (state == SendNoMoreInfo && Resting())
    {
      if inProbe {
        out := out.(timers := out.timers + 1);
      } else {
        state := SendNoMoreInfo;
        SendNoMoreInformation();
      }
    }

    /** Queueing a frame, at any time: unless the pool is used up it joins the end of the queue, and with it the
        sweep in progress. */
    method Post(f: Frame) returns (queued: bool)
      requires Resting()
      modifies this`list, this`inUse, this`sweep
      ensures Resting()
      ensures queued <==> old(inUse) < MAX_ENTRIES
      ensures list == if queued then old(list) + [f] else old(list)
      ensures queued && old(state) != Idle ==> sweep.arrived == old(sweep.arrived) + [f]
      ensures !queued ==> sweep == old(sweep)
    {
      if inUse >= MAX_ENTRIES {
        return false;
      }
      list := list + [f];
      inUse := inUse + 1;
      sweep := sweep.(tail := sweep.tail + [f], arrived := sweep.arrived + [f]);
      return true;
    }

    // the whole sweep

    static function Phase(st: MbState): nat {
      match st
      case ProbeWakeUpInterval => 4
      case Sending => 3
      case SendNoMoreInfoDelayed => 2
      case SendNoMoreInfo => 1
      case Idle => 0
    }

    /** The sweep's own events, in any mix of immediate and later completions, bring it to its end. The
        interview that delays the end lasts for `probes` timer periods. */
    method RunToIdle(probes: nat)
      requires (Finished() || (state != Idle && Resting())) && Complete()
      modifies this
      ensures Finished() && Complete() && SameSweep()
    {
      var left := probes;
      while state != Idle
        invariant (Finished() || (state != Idle && Resting())) && Complete() && SameSweep()
        decreases Phase(state), |sweep.tail|, left
      {
        if state == ProbeWakeUpInterval {
          ProbeDone();
        } else if state == Sending {
          var status: Status := *;
          FrameDone(status);
        } else if state == SendNoMoreInfoDelayed {
          NoMoreTimerExpires(left > 0);
          left := if left > 0 then left - 1 else 0;
        } else {
          NoMoreInfoDone();
        }
      }
    }

    /** A wake-up driven by the sweep's own events ends. A node that is in the database is offered its frames, in
        order: all of them, and the frames sent are gone, unless the transport refuses one, which is then the last;
        a node that is not is offered none. The end is put off exactly if all frames were taken and one of them
        announced more. One No More Information goes out, none after a broadcast. */
    method WholeSweep(n: nat, isBroadcast: bool, probes: nat, known: bool, unexpected: bool, asked: bool)
      requires n != 0 && state == Idle && Resting()
      modifies this
      ensures Finished() && node == n && sweep.before == old(out)
      ensures sweep.ending == UnknownNode <==> !known
      ensures sweep.ending == FrameRefused <==> known && false in sweep.answers
      ensures out.noMore == old(out).noMore + if isBroadcast then 0 else 1
      ensures out.intervalGets == old(out).intervalGets + if known && unexpected then 1 else 0
      ensures out.timers > old(out).timers <==>
        known && false !in sweep.answers && MoreToCome(ForNode(old(list), n))
      ensures !known ==> list == old(list) && Offered(sweep.done) == []
      ensures known && false !in sweep.answers ==>
        && Offered(sweep.done) == ForNode(old(list), n) && |sweep.answers| == |ForNode(old(list), n)|
        && list == Kept(sweep.done) && multiset(old(list)) == multiset(list) + multiset(Freed(sweep.done))
      ensures known && false in sweep.answers ==>
        && Offered(sweep.done) < ForNode(old(list), n) && |sweep.answers| == |Offered(sweep.done)| + 1
        && list == Kept(sweep.done) + sweep.tail
    {
      WakeupEvent(n, isBroadcast, false, known, unexpected, asked);
      RunToIdle(probes);
      assert sweep.answers == sweep.answers[..|sweep.answers|];
      OffersExactly(sweep.done, node);
      if sweep.ending == OutOfFrames {
        FinishedSweep();
        assert sweep.arrived[..sweep.visitable] == sweep.arrived;
        assert Kept(sweep.done) + sweep.arrived[sweep.visitable..] == Kept(sweep.done);
      } else if sweep.ending == FrameRefused {
        NextOffer(sweep.done, sweep.tail, node);
      }
    }

    /** What a finished sweep that ran out of frames amounts to: of the frames queued when it was over it
        offered exactly the node's, once each in queue order; the queue is what was not sent, in place. */
    lemma FinishedSweep()
      requires Finished() && sweep.ending == OutOfFrames
      ensures sweep.visitable <= |sweep.arrived|
      ensures Offered(sweep.done) == ForNode(sweep.arrived[..sweep.visitable], node)
      ensures list == Kept(sweep.done) + sweep.arrived[sweep.visitable..]
      ensures multiset(sweep.arrived[..sweep.visitable]) == multiset(Kept(sweep.done)) + multiset(Freed(sweep.done))
    {
      FramesLength(sweep.done);
      assert sweep.arrived[..sweep.visitable] == Frames(sweep.done) && sweep.arrived[sweep.visitable..] == sweep.tail;
      OffersExactly(sweep.done, node);
      KeptAndFreed(sweep.done);
    }
  }
}
