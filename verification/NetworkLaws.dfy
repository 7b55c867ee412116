/** The course of a network management session (src/CC_NetworkManagement.c), question by question: how the
    security of an inclusion turns out, where a session goes, what is said and when, who takes the probe lock and
    who releases it, which flags a session carries. Each table answers one question for all states and is read off
    the source on its own; `Course` proves that the reactions of module NetworkManagement, which follow the code
    state by state, agree with all of them. On top stand the outcome law of an inclusion and the release law of the
    network-update latch, for one input and for whole runs. */
module NetworkLaws {
  import opened UpdateLatch
  import opened NetworkManagement

  // ------------------------------------------------------------------ how an inclusion turns out

  /** Not decided by this event; joined, with or without S2 keys; failed. */
  datatype Outcome = Open | Good(s2: bool) | Bad

  /** The new node is neither handed to the SUC nor bootstrapped. */
  predicate Plain(s2Add: bool, e: Env) {
    !e.sucIncludes && !(s2Add && e.wantsS2) && !e.wantsS0
  }

  /** A simulated add fails if the node information cannot be used. */
  predicate ProxyJoins(s: Nm, ev: Event) {
    ev.NodeInfo? && (ev.valid || !s.cmd.NodeAdd?)
  }

  /** The bootstrapping ends, is stopped or times out; a node that is neither handed over nor bootstrapped joins
      as it is; a node that is known already is as secure as it was; the SUC has done its part. */
  function OutcomeOf(s: Nm, ev: Event, e: Env): Outcome {
    match s.state
    case WaitForSecureAdd =>
      if ev.SecurityDone? then (if ev.bad then Bad else Good(ev.s2))
      else if ev.AddStop? || ev.Timeout? then Bad else Open
    case WaitForProtocol =>
      if !ev.AddStatusDone? then Open
      else if e.nodeKnown && !s.flags.proxy then (if e.knownBad then Bad else Good(e.hasS2))
      else if Plain(s.flags.s2Add, e) then Good(false) else Open
    case ReplaceFailedReq => if ev.ReplaceDone? && Plain(s.flags.s2Add, e) then Good(false) else Open
    case ProxyInclusionWaitNif => if ProxyJoins(s, ev) && Plain(true, e) then Good(false) else Open
    case PrepareSucInclusion => if ev.Timeout? && e.handoverRefused then Good(e.hasS2) else Open
    case WaitForSucInclusion => if ev.ProxyComplete? then Good(e.hasS2) else Open
    case _ => Open
  }

  /** A failed smart start inclusion. */
  predicate Doomed(s: Nm, ev: Event, e: Env) {
    s.flags.smartStart && OutcomeOf(s, ev, e).Bad?
  }

  // ------------------------------------------------------------------ where a session goes

  predicate BeginsLearn(ev: Event) {
    ev.LearnSet? && !ev.kind.Disable? && !ev.kind.UnknownKind?
  }

  function IdleTarget(ev: Event, e: Env): NmState {
    if ev.AddNode? || (ev.SmartStartFound? && ev.provisioned) then WaitingForAdd
    else if ev.ReplaceStart? || ev.ReplaceStop? then ReplaceFailedReq
    else if ev.StartProxy? then ProxyInclusionWaitNif
    else if BeginsLearn(ev) then LearnMode
    else if ev.FactoryReset? then SetDefault
    else if !ev.Begin? || ev.op.RemovingAssociations? then NmIdle
    else if e.accepted || !(ev.op.NodeInfoProbe? || ev.op.SendingNodeInfo? || ev.op.NetworkUpdate?) then Busy(ev.op)
    else if ev.op.NetworkUpdate? && e.newNodes then WaitingForProbe else NmIdle
  }

  /** From a join on: the outcome, the hand-over to the SUC or the bootstrapping. */
  function Joining(s: Nm, ev: Event, e: Env): NmState {
    if !OutcomeOf(s, ev, e).Open? then Decided(s, ev, e)
    else if e.sucIncludes then PrepareSucInclusion else WaitForSecureAdd
  }

  function Decided(s: Nm, ev: Event, e: Env): NmState {
    if OutcomeOf(s, ev, e).Open? then s.state
    else if Doomed(s, ev, e) then SelfDestruct(Waiting, false) else WaitForProbeAfterAdd
  }

  /** Two tries: wait, transmit, have the node removed. */
  predicate AsksRemoval(stage: Stage, ev: Event, e: Env) {
    (stage.Waiting? && ev.Timeout? && !e.accepted) || (stage.Transmitting? && ev.SelfDestructTxDone?)
  }

  predicate Refused(stage: Stage, ev: Event, e: Env) {
    (AsksRemoval(stage, ev, e) && !e.started) || (stage.Removing? && ev.SelfDestructNotRemoved?)
  }

  /** The node is removed, the radio does not answer, or the second try is refused. */
  predicate DestructEnds(stage: Stage, retry: bool, ev: Event, e: Env) {
    (stage.Removing? && (ev.SelfDestructRemoved? || ev.Timeout?)) || (retry && Refused(stage, ev, e))
  }

  function DestructTarget(stage: Stage, retry: bool, ev: Event, e: Env): NmState {
    if Refused(stage, ev, e) then SelfDestruct(if retry then Removing else Waiting, true)
    else if AsksRemoval(stage, ev, e) then SelfDestruct(Removing, retry)
    else if stage.Waiting? && ev.Timeout? then SelfDestruct(Transmitting, retry)
    else SelfDestruct(stage, retry)
  }

  function LearnTarget(s: Nm, ev: Event, e: Env): NmState {
    if ev.LearnStarted? then LearnModeStarted
    else if !ev.LearnDone? then s.state
    else if e.excluded then SetDefault else if e.newNetwork then WaitForSecureLearn else WaitForMdns
  }

  /** A learn mode session, an interview by the SIS or a factory reset is over but for the network update. */
  predicate Arms(s: Nm, ev: Event) {
    match s.state
    case WaitForMdns => ev.MdnsExit? && !s.flags.learnNew
    case WaitForOurProbe => ev.AllProbed? && s.flags.learnNew
    case SetDefault => ev.MdnsExit?
    case _ => false
  }

  function Target(s: Nm, ev: Event, e: Env): NmState {
    match s.state
    case NmIdle => IdleTarget(ev, e)
    case WaitingForAdd => if ev.AddNodeFound? then NodeFound else s.state
    case NodeFound => if ev.NodeAdded? && ev.valid then WaitForProtocol else s.state
    case WaitForProtocol => if ev.AddStatusDone? then Joining(s, ev, e) else s.state
    case ReplaceFailedReq => if ev.ReplaceDone? then Joining(s, ev, e) else s.state
    case ProxyInclusionWaitNif =>
      if ev.Timeout? then NmIdle
      else if ProxyJoins(s, ev) then Joining(s, ev, e)
      else if ev.NodeInfo? then NodeFound else s.state
    case WaitForSecureAdd => Decided(s, ev, e)
    case WaitForSucInclusion => Decided(s, ev, e)
    case PrepareSucInclusion => if ev.Timeout? && !e.handoverRefused then WaitForSucInclusion else Decided(s, ev, e)
    case WaitForProbeAfterAdd => if ev.NodeProbeDone? && ev.awaited then WaitDhcp else s.state
    case LearnMode => LearnTarget(s, ev, e)
    case LearnModeStarted => LearnTarget(s, ev, e)
    case WaitForSecureLearn => if ev.SecurityDone? then WaitForMdns else s.state
    case WaitForMdns => if !ev.MdnsExit? then s.state else if Arms(s, ev) then WaitingForProbe else WaitForProbeBySis
    case WaitForProbeBySis => if ev.Timeout? then WaitForOurProbe else s.state
    case WaitForOurProbe => if Arms(s, ev) then WaitingForProbe else s.state
    case SetDefault => if Arms(s, ev) then WaitingForProbe else s.state
    case SelfDestruct(stage, retry) => DestructTarget(stage, retry, ev, e)
    case _ => s.state
  }

  // ------------------------------------------------------------------ what is said

  /** Learn mode is cancelled by the client, or its timer has run out. */
  predicate GivenUp(s: Nm, ev: Event) {
    (ev.LearnSet? && ev.kind.Disable?) || (ev.Timeout? && ((!s.flags.nwi && !s.flags.nwe) || s.learnCount >= 4))
  }

  /** The radio or the cache answers a command at once. */
  predicate AtOnce(op: Operation, e: Env) {
    !e.accepted && match op
      case NetworkUpdate => !e.newNodes || Updated(e)
      case NodeInfoProbe => true
      case ReturnRouteAssign => true
      case ReturnRouteDelete => true
      case FailNodeRemoval => true
      case _ => false
  }

  /** An update that waits for nothing more when it is armed is answered at once. */
  predicate Updated(e: Env) {
    !e.timerFree && (e.bridgeReady || e.bridgeBooted)
  }

  function IdleSpeech(ev: Event, e: Env): Speech {
    if ev.RequestList? || ev.RemoveStop? || (ev.LearnSet? && ev.kind.Disable?) || (ev.Begin? && AtOnce(ev.op, e)) then
      Reply
    else if ev.AddStop? || ev.ReplaceStop? || (ev.ReplaceStart? && !e.started) then Status
    else if ev.SmartStartReject? || (ev.Begin? && ev.op.SendingNodeInfo? && !e.accepted) then Abort
    else Nothing
  }

  /** A client, a timer or the radio ends a session that has nothing more to wait for: it is reported. */
  predicate Reports(s: Nm, ev: Event, e: Env) {
    match s.state
    case WaitingForAdd => ev.AddStop? || ev.Timeout?
    case NodeFound => (ev.NodeAdded? && !ev.valid) || ev.AddFailed? || ev.Timeout?
    case WaitForProtocol => ev.AddFailed? || ev.Timeout?
    case ProxyInclusionWaitNif => ev.NodeInfo? && !ProxyJoins(s, ev)
    case ReplaceFailedReq => ev.Timeout? || ev.ReplaceStop? || ev.ReplaceFailed?
    case WaitForProbeAfterAdd => ev.NodeProbeDone? && ev.awaited && e.hasIp
    case WaitDhcp => (ev.DhcpDone? && ev.awaited) || ev.Timeout?
    case _ => false
  }

  predicate BusyReplies(op: Operation, ev: Event) {
    || (op.RemovingAssociations? && ev.VirtualNodesRemoved?)
    || (op.NodeRemoval? && ev.RemoveStop?)
    || (op.NeighborUpdate? && (ev.Timeout? || (ev.OperationDone? && ev.op.NeighborUpdate?)))
    || (op.NodeInfoProbe? && ev.OperationDone? && ev.op.NodeInfoProbe?)
  }

  predicate Replies(s: Nm, ev: Event, e: Env) {
    match s.state
    case LearnMode => GivenUp(s, ev) || ev.LearnFailed?
    case LearnModeStarted => ev.LearnFailed?
    case Busy(op) => BusyReplies(op, ev)
    case _ => Arms(s, ev) && Updated(e)
  }

  function SpeechOf(s: Nm, ev: Event, e: Env): Speech {
    match s.state
    case NmIdle => IdleSpeech(ev, e)
    case SelfDestruct(stage, retry) => if DestructEnds(stage, retry, ev, e) then Abort else Nothing
    case _ => if Reports(s, ev, e) then Status else if Replies(s, ev, e) then Reply else Nothing
  }

  // ------------------------------------------------------------------ the lock and the flags

  /** A node that joined and is not yet as secure as it will be, and a network that is being joined, lock the
      probe; outcomes release it, but for a node that is to destroy itself. */
  predicate LockedAfter(s: Nm, ev: Event, e: Env) {
    match s.state
    case NmIdle =>
      s.locked && !(ev.Begin? && ((ev.op.NodeInfoProbe? && e.accepted) ||
                                  (ev.op.NetworkUpdate? && !e.accepted && e.newNodes)))
    case SelfDestruct(stage, retry) => s.locked && !DestructEnds(stage, retry, ev, e)
    case LearnMode => ev.LearnStarted? || (s.locked && !GivenUp(s, ev) && !ev.LearnFailed?)
    case LearnModeStarted => ev.LearnStarted? || (s.locked && !ev.LearnFailed?)
    case NodeFound => s.locked && !Reports(s, ev, e)
    case WaitForProtocol => if ev.AddStatusDone? then JoinLocked(s, ev, e) else s.locked && !Reports(s, ev, e)
    case ReplaceFailedReq => if ev.ReplaceDone? then JoinLocked(s, ev, e) else s.locked
    case ProxyInclusionWaitNif => if ProxyJoins(s, ev) then JoinLocked(s, ev, e) else s.locked && !ev.NodeInfo?
    case WaitForSecureAdd => s.locked && (OutcomeOf(s, ev, e).Open? || Doomed(s, ev, e))
    case PrepareSucInclusion => s.locked && OutcomeOf(s, ev, e).Open?
    case WaitForSucInclusion => s.locked && OutcomeOf(s, ev, e).Open?
    case _ => s.locked && !Arms(s, ev)
  }

  predicate JoinLocked(s: Nm, ev: Event, e: Env) {
    OutcomeOf(s, ev, e).Open? || (s.locked && Doomed(s, ev, e))
  }

  function IdleFlags(f: Flags, ev: Event): Flags {
    if BeginsLearn(ev) then
      NO_FLAGS.(nwi := ev.kind.Nwi?, nwe := ev.kind.Nwe?, learnNew := ev.wantInterview && !ev.kind.Nwe?)
    else if (ev.AddNode? || ev.ReplaceStart?) && ev.s2 then NO_FLAGS.(s2Add := true)
    else if ev.SmartStartFound? && ev.provisioned then NO_FLAGS.(s2Add := true, smartStart := true)
    else f
  }

  function FlagsAfter(s: Nm, ev: Event, e: Env): Flags {
    match s.state
    case NmIdle => IdleFlags(s.flags, ev)
    case ProxyInclusionWaitNif => if ev.NodeInfo? then NO_FLAGS.(s2Add := true, proxy := true) else s.flags
    case LearnMode => Replicates(s.flags, ev, e)
    case LearnModeStarted => Replicates(s.flags, ev, e)
    case WaitForProtocol => Keyed(s, ev, e)
    case WaitForSecureAdd => Keyed(s, ev, e)
    case PrepareSucInclusion => Keyed(s, ev, e)
    case WaitForSucInclusion => Keyed(s, ev, e)
    case _ => s.flags
  }

  /** The device-specific key of a node that joined with S2 keys is reported. */
  function Keyed(s: Nm, ev: Event, e: Env): Flags {
    if OutcomeOf(s, ev, e) == Good(true) then s.flags.(reportDsk := true) else s.flags
  }

  function Replicates(f: Flags, ev: Event, e: Env): Flags {
    if ev.LearnDone? && !e.excluded && !e.newNetwork then f.(replication := true) else f
  }

  // ------------------------------------------------------------------ command, peer, count and latch

  function CommandAfter(s: Nm, ev: Event): Command {
    if !s.state.NmIdle? then s.cmd
    else if ev.AddNode? || (ev.SmartStartFound? && ev.provisioned) || (ev.StartProxy? && !ev.replace) then NodeAdd
    else if ev.ReplaceStart? || ev.ReplaceStop? || ev.StartProxy? then FailedNodeReplace
    else s.cmd
  }

  function CountAfter(s: Nm, ev: Event): nat {
    match s.state
    case NmIdle => if BeginsLearn(ev) then 0 else s.learnCount
    case LearnMode => if ev.Timeout? && !GivenUp(s, ev) then s.learnCount + 1 else s.learnCount
    case _ => s.learnCount
  }

  /** A proxy or smart start inclusion reports to the unsolicited destination. */
  function PeerAfter(s: Nm, ev: Event, e: Env): nat {
    if s.state.NmIdle? && (ev.StartProxy? || ev.SmartStartFound?) && e.hasUnsolicited then UNSOLICITED else s.peer
  }

  /** The network update is waited for from now on: at the end of learn mode or of a factory reset, or after a
      network update, which the radio may refuse, found nodes to probe. */
  predicate Waits(s: Nm, ev: Event, e: Env) {
    match s.state
    case NmIdle => ev.Begin? && ev.op.NetworkUpdate? && !e.accepted && e.newNodes
    case _ => Arms(s, ev)
  }

  /** The virtual nodes may be ready already; without a timer for the update the other two flags are taken to
      hold. */
  function Arming(e: Env): Note {
    if e.timerFree then Armed(false, false, e.bridgeReady) else Armed(true, true, e.bridgeReady || e.bridgeBooted)
  }

  // ------------------------------------------------------------------ what is registered with the radio

  function IdleAdding(adding: bool, ev: Event, e: Env): bool {
    if ev.AddNode? || (ev.SmartStartFound? && ev.provisioned) then true
    else if BeginsLearn(ev) || ev.ReplaceStart? then false
    else if ev.SmartStartInit? && !e.restart.Untouched? then e.restart.Listening?
    else adding
  }

  function AddingAfter(s: Nm, ev: Event, e: Env): bool {
    match s.state
    case NmIdle => IdleAdding(s.radio.adding, ev, e)
    case WaitingForAdd => s.radio.adding || Reports(s, ev, e)
    case NodeFound => s.radio.adding && !Reports(s, ev, e)
    case WaitForProtocol => ev.AddProtocolDone? || (s.radio.adding && !ev.AddStatusDone? && !Reports(s, ev, e))
    case ReplaceFailedReq => s.radio.adding && !Reports(s, ev, e)
    case ProxyInclusionWaitNif => s.radio.adding && !(ev.NodeInfo? && s.cmd.NodeAdd?)
    case _ => s.radio.adding
  }

  /** Network-wide inclusion and exclusion register again after the first timeout. */
  predicate LearningAfter(s: Nm, ev: Event) {
    match s.state
    case NmIdle => s.radio.learning || BeginsLearn(ev)
    case LearnMode => (s.radio.learning || (ev.Timeout? && s.learnCount == 0)) && !GivenUp(s, ev)
    case _ => s.radio.learning
  }

  /** One more answer, if the radio accepts the request; the slot is taken in any case. */
  function Asks(l: Line, command: bool, accepted: bool): Line {
    Line(command, l.open + if accepted then 1 else 0)
  }

  function BeginsWith(r: Radio, op: Operation, accepted: bool): Radio {
    if op.ReturnRouteAssign? then r.(assign := Asks(r.assign, true, accepted))
    else if op.FailNodeRemoval? then r.(failed := Asks(r.failed, true, accepted))
    else if op.NodeRemoval? then r.(removing := true)
    else if Sole(op) && (accepted || op.SendingNodeInfo?) then r.(pending := r.pending + multiset{op})
    else r
  }

  /** Answers owed and removals registered. */
  function OwedAfter(s: Nm, ev: Event, e: Env): Radio {
    var r := s.radio;
    match s.state
    case NmIdle =>
      if ev.ReplaceStart? then r.(replacing := r.replacing + if e.started then 1 else 0)
      else if ev.RemoveStop? then r.(removing := false, timer := false)
      else if ev.Begin? then BeginsWith(r, ev.op, e.accepted) else r
    case SelfDestruct(stage, _) =>
      if AsksRemoval(stage, ev, e) then r.(failed := Asks(r.failed, false, e.started)) else r
    case Busy(op) =>
      if !op.NodeRemoval? then r
      else if ev.RemoveStop? then r.(removing := false, timer := false)
      else if ev.Begin? && ev.op.NodeRemoval? then r.(removing := true) else r
    case _ => r
  }

  // ------------------------------------------------------------------ agreement with the reactions

  /** All parts together, for the events that go through the event function. */
  function Expected(s: Nm, ev: Event, e: Env): Move {
    Move(
      s.(state := Target(s, ev, e), flags := FlagsAfter(s, ev, e), locked := LockedAfter(s, ev, e),
         cmd := CommandAfter(s, ev), peer := PeerAfter(s, ev, e), learnCount := CountAfter(s, ev),
         latch := if Waits(s, ev, e) then Marked(s.latch, Arming(e)) else s.latch,
         radio := OwedAfter(s, ev, e).(adding := AddingAfter(s, ev, e), learning := LearningAfter(s, ev))),
      SpeechOf(s, ev, e))
  }

  lemma WaitingForAddAgrees(s: Nm, ev: Event, e: Env)
    requires s.state.WaitingForAdd?
    ensures OnWaitingForAdd(s, ev) == Expected(s, ev, e)
  {}

  lemma NodeFoundAgrees(s: Nm, ev: Event, e: Env)
    requires s.state.NodeFound?
    ensures OnNodeFound(s, ev) == Expected(s, ev, e)
  {}

  lemma JoinAgrees(s: Nm, e: Env)
    requires s.state.ReplaceFailedReq?
    ensures Just(Joined(s, e)) == Expected(s, ReplaceDone, e)
  {}

  lemma ReplaceFailedReqAgrees(s: Nm, ev: Event, e: Env)
    requires s.state.ReplaceFailedReq? && !ev.ReplaceDone?
    ensures OnReplaceFailedReq(s, ev, e) == Expected(s, ev, e)
  {}

  lemma AddEndsAgrees(s: Nm, e: Env)
    requires s.state.WaitForProtocol?
    ensures Just(AddEnds(s, e)) == Expected(s, AddStatusDone, e)
  {}

  lemma WaitForProtocolAgrees(s: Nm, ev: Event, e: Env)
    requires s.state.WaitForProtocol? && !ev.AddStatusDone?
    ensures OnWaitForProtocol(s, ev, e) == Expected(s, ev, e)
  {}

  lemma ProxyWaitNifAgrees(s: Nm, ev: Event, e: Env)
    requires s.state.ProxyInclusionWaitNif?
    ensures OnProxyWaitNif(s, ev, e) == Expected(s, ev, e)
  {}

  lemma PrepareSucAgrees(s: Nm, ev: Event, e: Env)
    requires s.state.PrepareSucInclusion?
    ensures Just(OnPrepareSucInclusion(s, ev, e)) == Expected(s, ev, e)
  {}

  lemma WaitForSucAgrees(s: Nm, ev: Event, e: Env)
    requires s.state.WaitForSucInclusion?
    ensures Just(OnWaitForSucInclusion(s, ev, e)) == Expected(s, ev, e)
  {}

  lemma WaitForSecureAddAgrees(s: Nm, ev: Event, e: Env)
    requires s.state.WaitForSecureAdd?
    ensures Just(OnWaitForSecureAdd(s, ev)) == Expected(s, ev, e)
  {}

  lemma ProbeAfterAddAgrees(s: Nm, ev: Event, e: Env)
    requires s.state.WaitForProbeAfterAdd?
    ensures OnWaitForProbeAfterAdd(s, ev, e) == Expected(s, ev, e)
  {}

  lemma WaitDhcpAgrees(s: Nm, ev: Event, e: Env)
    requires s.state.WaitDhcp?
    ensures OnWaitDhcp(s, ev) == Expected(s, ev, e)
  {}

  lemma WaitingForProbeAgrees(s: Nm, ev: Event, e: Env)
    requires s.state.WaitingForProbe?
    ensures OnAdd(s, ev, e) == Expected(s, ev, e)
  {}

  lemma LearnTimeoutAgrees(s: Nm, e: Env)
    requires s.state.LearnMode?
    ensures OnLearnMode(s, Timeout, e) == Expected(s, Timeout, e)
  {}

  lemma LearnModeAgrees(s: Nm, ev: Event, e: Env)
    requires s.state.LearnMode? && !ev.Timeout?
    ensures OnLearnMode(s, ev, e) == Expected(s, ev, e)
  {}

  lemma LearnModeStartedAgrees(s: Nm, ev: Event, e: Env)
    requires s.state.LearnModeStarted?
    ensures PostMove(s, ev, e) == Expected(s, ev, e)
  {}

  lemma SecureLearnAgrees(s: Nm, ev: Event, e: Env)
    requires s.state.WaitForSecureLearn? || s.state.WaitForProbeBySis?
    ensures PostMove(s, ev, e) == Expected(s, ev, e)
  {}

  lemma MdnsAgrees(s: Nm, ev: Event, e: Env)
    requires s.state.WaitForMdns?
    ensures PostMove(s, ev, e) == Expected(s, ev, e)
  {}

  lemma OurProbeAgrees(s: Nm, ev: Event, e: Env)
    requires s.state.WaitForOurProbe?
    ensures PostMove(s, ev, e) == Expected(s, ev, e)
  {}

  lemma SetDefaultAgrees(s: Nm, ev: Event, e: Env)
    requires s.state.SetDefault?
    ensures PostMove(s, ev, e) == Expected(s, ev, e)
  {}

  lemma DestructWaitAgrees(s: Nm, ev: Event, e: Env)
    requires s.state.SelfDestruct? && s.state.stage.Waiting?
    ensures PostMove(s, ev, e) == Expected(s, ev, e)
  {}

  lemma DestructSendAgrees(s: Nm, ev: Event, e: Env)
    requires s.state.SelfDestruct? && s.state.stage.Transmitting?
    ensures PostMove(s, ev, e) == Expected(s, ev, e)
  {}

  lemma DestructRemoveAgrees(s: Nm, retry: bool, ev: Event, e: Env)
    requires s.state == SelfDestruct(Removing, retry)
    ensures OnRemoving(s, retry, ev) == Expected(s, ev, e)
  {}

  lemma RemovingAgrees(s: Nm, ev: Event, e: Env)
    requires s.state == Busy(NodeRemoval)
    ensures OnBusy(s, ev, e) == Expected(s, ev, e)
  {}

  lemma OtherBusyAgrees(s: Nm, ev: Event, e: Env)
    requires s.state.Busy? && !s.state.op.NodeRemoval?
    ensures OnBusy(s, ev, e) == Expected(s, ev, e)
  {}

  lemma BeginAgrees(s: Nm, op: Operation, e: Env)
    requires s.state.NmIdle?
    ensures BeginOperation(s, op, e) == Expected(s, Begin(op), e)
  {}

  lemma LearnBeginsAgrees(s: Nm, kind: LearnKind, interview: bool, e: Env)
    requires s.state.NmIdle?
    ensures LearnBegins(s, kind, interview) == Expected(s, LearnSet(kind, interview), e)
  {}

  lemma ReplaceBeginsAgrees(s: Nm, s2: bool, e: Env)
    requires s.state.NmIdle?
    ensures ReplaceBegins(s, s2, e) == Expected(s, ReplaceStart(s2), e)
  {}

  lemma InvitedAgrees(s: Nm, ev: Event, e: Env)
    requires s.state.NmIdle? && (ev.AddNode? || ev.SmartStartFound? || ev.StartProxy?)
    ensures OnIdle(s, ev, e) == Expected(s, ev, e)
  {}

  lemma OtherIdleAgrees(s: Nm, ev: Event, e: Env)
    requires s.state.NmIdle? && !ev.Begin? && !ev.LearnSet? && !ev.ReplaceStart?
    requires !ev.AddNode? && !ev.SmartStartFound? && !ev.StartProxy?
    ensures OnIdle(s, ev, e) == Expected(s, ev, e)
  {}

  lemma FoundCourse(s: Nm, ev: Event, e: Env)
    requires s.state.WaitingForAdd? || s.state.NodeFound? || s.state.ProxyInclusionWaitNif?
    ensures PostMove(s, ev, e) == Expected(s, ev, e)
  {
    if s.state.WaitingForAdd? {
      WaitingForAddAgrees(s, ev, e);
    } else if s.state.NodeFound? {
      NodeFoundAgrees(s, ev, e);
    } else {
      ProxyWaitNifAgrees(s, ev, e);
    }
  }

  lemma ReplaceCourse(s: Nm, ev: Event, e: Env)
    requires s.state.ReplaceFailedReq?
    ensures PostMove(s, ev, e) == Expected(s, ev, e)
  {
    if ev.ReplaceDone? {
      JoinAgrees(s, e);
    } else {
      ReplaceFailedReqAgrees(s, ev, e);
    }
  }

  lemma ProtocolCourse(s: Nm, ev: Event, e: Env)
    requires s.state.WaitForProtocol?
    ensures PostMove(s, ev, e) == Expected(s, ev, e)
  {
    if ev.AddStatusDone? {
      AddEndsAgrees(s, e);
    } else {
      WaitForProtocolAgrees(s, ev, e);
    }
  }

  lemma SecuredCourse(s: Nm, ev: Event, e: Env)
    requires s.state.WaitForSecureAdd?
    ensures PostMove(s, ev, e) == Expected(s, ev, e)
  {
    WaitForSecureAddAgrees(s, ev, e);
  }

  lemma HandedOverCourse(s: Nm, ev: Event, e: Env)
    requires s.state.PrepareSucInclusion? || s.state.WaitForSucInclusion?
    ensures PostMove(s, ev, e) == Expected(s, ev, e)
  {
    if s.state.PrepareSucInclusion? {
      PrepareSucAgrees(s, ev, e);
    } else {
      WaitForSucAgrees(s, ev, e);
    }
  }

  lemma InterviewedCourse(s: Nm, ev: Event, e: Env)
    requires s.state.WaitForProbeAfterAdd? || s.state.WaitDhcp? || s.state.WaitingForProbe?
    ensures PostMove(s, ev, e) == Expected(s, ev, e)
  {
    if s.state.WaitForProbeAfterAdd? {
      ProbeAfterAddAgrees(s, ev, e);
    } else if s.state.WaitDhcp? {
      WaitDhcpAgrees(s, ev, e);
    } else {
      WaitingForProbeAgrees(s, ev, e);
    }
  }

  lemma LearnsCourse(s: Nm, ev: Event, e: Env)
    requires s.state.LearnMode?
    ensures PostMove(s, ev, e) == Expected(s, ev, e)
  {
    if ev.Timeout? {
      LearnTimeoutAgrees(s, e);
    } else {
      LearnModeAgrees(s, ev, e);
    }
  }

  lemma LearnedCourse(s: Nm, ev: Event, e: Env)
    requires Learnish(s.state) && !s.state.LearnMode? && !s.state.LearnModeStarted?
    ensures PostMove(s, ev, e) == Expected(s, ev, e)
  {
    if s.state.WaitForMdns? {
      MdnsAgrees(s, ev, e);
    } else if s.state.WaitForOurProbe? {
      OurProbeAgrees(s, ev, e);
    } else if s.state.SetDefault? {
      SetDefaultAgrees(s, ev, e);
    } else {
      SecureLearnAgrees(s, ev, e);
    }
  }

  lemma DestructRemoveCourse(s: Nm, retry: bool, ev: Event, e: Env)
    requires s.state == SelfDestruct(Removing, retry)
    ensures PostMove(s, ev, e) == Expected(s, ev, e)
  {
    DestructRemoveAgrees(s, retry, ev, e);
  }

  lemma DestructCourse(s: Nm, ev: Event, e: Env)
    requires s.state.SelfDestruct?
    ensures PostMove(s, ev, e) == Expected(s, ev, e)
  {
    if s.state.stage.Waiting? {
      DestructWaitAgrees(s, ev, e);
    } else if s.state.stage.Transmitting? {
      DestructSendAgrees(s, ev, e);
    } else {
      DestructRemoveCourse(s, s.state.retry, ev, e);
    }
  }

  lemma BusyCourse(s: Nm, ev: Event, e: Env)
    requires s.state.Busy?
    ensures PostMove(s, ev, e) == Expected(s, ev, e)
  {
    if s.state.op.NodeRemoval? {
      RemovingAgrees(s, ev, e);
    } else {
      OtherBusyAgrees(s, ev, e);
    }
  }

  lemma IdleCourse(s: Nm, ev: Event, e: Env)
    requires s.state.NmIdle?
    ensures PostMove(s, ev, e) == Expected(s, ev, e)
  {
    if ev.Begin? {
      BeginAgrees(s, ev.op, e);
    } else if ev.LearnSet? {
      LearnBeginsAgrees(s, ev.kind, ev.wantInterview, e);
    } else if ev.ReplaceStart? {
      ReplaceBeginsAgrees(s, ev.s2, e);
    } else if ev.AddNode? || ev.SmartStartFound? || ev.StartProxy? {
      InvitedAgrees(s, ev, e);
    } else {
      OtherIdleAgrees(s, ev, e);
    }
  }

  /** Every event the machine is given, in every state, agrees with the tables. */
  lemma Course(s: Nm, ev: Event, e: Env)
    ensures PostMove(s, ev, e) == Expected(s, ev, e)
  {
    var st := s.state;
    if st.NmIdle? {
      IdleCourse(s, ev, e);
    } else if st.Busy? {
      BusyCourse(s, ev, e);
    } else if st.SelfDestruct? {
      DestructCourse(s, ev, e);
    } else if st.LearnMode? {
      LearnsCourse(s, ev, e);
    } else if st.LearnModeStarted? {
      LearnModeStartedAgrees(s, ev, e);
    } else if Learnish(st) {
      LearnedCourse(s, ev, e);
    } else if st.WaitingForAdd? || st.NodeFound? || st.ProxyInclusionWaitNif? {
      FoundCourse(s, ev, e);
    } else if st.WaitForProtocol? {
      ProtocolCourse(s, ev, e);
    } else if st.ReplaceFailedReq? {
      ReplaceCourse(s, ev, e);
    } else if st.PrepareSucInclusion? || st.WaitForSucInclusion? {
      HandedOverCourse(s, ev, e);
    } else if st.WaitForSecureAdd? {
      SecuredCourse(s, ev, e);
    } else {
      InterviewedCourse(s, ev, e);
    }
  }

  // ------------------------------------------------------------------ callbacks outside the event function

  /** The answer to a failed node removal reaches the self-destruct sequence, not a command. */
  predicate Destroys(s: Nm, op: Operation) {
    op.FailNodeRemoval? && !s.radio.failed.mine && s.state.SelfDestruct? && s.state.stage.Removing?
  }

  /** A network update found nodes to probe. */
  predicate WaitsOutside(ev: Event, e: Env) {
    ev.OperationDone? && ev.op.NetworkUpdate? && e.newNodes
  }

  /** An answer is passed on to the client whose command is in the slot. */
  function AnswerSpeech(s: Nm, op: Operation, success: bool, e: Env): Speech {
    if op.NodeRemoval? || op.ReturnRouteDelete? || (op.NetworkUpdate? && (!e.newNodes || Updated(e))) ||
       (op.ReturnRouteAssign? && s.radio.assign.mine) || (op.FailNodeRemoval? && s.radio.failed.mine) then Reply
    else if op.SendingNodeInfo? || (Destroys(s, op) && (success || s.state.retry)) then Abort
    else Nothing
  }

  function OutsideTarget(s: Nm, ev: Event, e: Env): NmState {
    if !ev.OperationDone? then s.state
    else if WaitsOutside(ev, e) then WaitingForProbe
    else if ev.op.NodeRemoval? && ev.success then Busy(RemovingAssociations)
    else if Destroys(s, ev.op) && !ev.success && !s.state.retry then SelfDestruct(Waiting, true)
    else s.state
  }

  predicate OutsideLocked(s: Nm, ev: Event, e: Env) {
    s.locked && !WaitsOutside(ev, e) &&
    !(ev.OperationDone? && Destroys(s, ev.op) && (ev.success || s.state.retry))
  }

  function Minus(n: nat): nat {
    if n > 0 then n - 1 else 0
  }

  /** Exactly one thing will not call back after all. */
  function Quieted(r: Radio, w: Silence): Radio {
    Radio(
      r.adding && !w.AddSilent?, r.learning && !w.LearnSilent?,
      if w.ReplaceSilent? then Minus(r.replacing) else r.replacing,
      if w.AnswerSilent? then r.pending - multiset{w.op} else r.pending,
      r.removing && !w.RemoveSilent?, r.timer && !w.TimerSilent?,
      if w.ForgottenSilent? then Minus(r.forgotten) else r.forgotten,
      if w.AssignSilent? then Line(r.assign.mine, Minus(r.assign.open)) else r.assign,
      if w.FailedSilent? then Line(r.failed.mine, Minus(r.failed.open)) else r.failed)
  }

  function AnsweredRadio(r: Radio, op: Operation): Radio {
    if op.NodeRemoval? then r.(removing := false, timer := false)
    else if op.FailNodeRemoval? then r.(failed := Line(r.failed.mine, Minus(r.failed.open)))
    else if op.ReturnRouteAssign? then r.(assign := Line(r.assign.mine, Minus(r.assign.open)))
    else if Sole(op) then r.(pending := r.pending - multiset{op}) else r
  }

  function OutsideRadio(r: Radio, ev: Event, e: Env): Radio {
    if ev.OperationDone? then AnsweredRadio(r, ev.op)
    else if ev.RemoveReady? then r.(timer := e.timerFree, forgotten := r.forgotten + if r.timer then 1 else 0)
    else if ev.RemoveTimer? then
      r.(removing := false, timer := false, forgotten := if ev.forgotten then Minus(r.forgotten) else r.forgotten)
    else if ev.ForeignRoute? then r.(assign := Asks(r.assign, false, ev.started))
    else if ev.Silent? then Quieted(r, ev.what) else r
  }

  function ExpectedOutside(s: Nm, ev: Event, e: Env): Move {
    Move(
      s.(state := OutsideTarget(s, ev, e), locked := OutsideLocked(s, ev, e),
         latch := if WaitsOutside(ev, e) then Marked(s.latch, Arming(e)) else s.latch,
         replies := if ev.Silent? && ev.what.ReplySilent? then Minus(s.replies) else s.replies,
         radio := OutsideRadio(s.radio, ev, e)),
      if ev.RemoveTimer? then Reply
      else if ev.OperationDone? then AnswerSpeech(s, ev.op, ev.success, e) else Nothing)
  }

  lemma FailedAgrees(s: Nm, success: bool, e: Env)
    ensures FailedAnswered(s, success, e) == ExpectedOutside(s, OperationDone(FailNodeRemoval, success), e)
  {}

  lemma AnswerAgrees(s: Nm, op: Operation, success: bool, e: Env)
    requires Unguarded(op)
    ensures Answered(s, op, success, e) == ExpectedOutside(s, OperationDone(op, success), e)
  {
    if op.FailNodeRemoval? {
      FailedAgrees(s, success, e);
    }
  }

  lemma SilenceAgrees(r: Radio, what: Silence)
    ensures Silenced(r, what) == Quieted(r, what)
  {}

  lemma QuietAgrees(s: Nm, what: Silence, e: Env)
    ensures OnDirect(s, Silent(what), e) == ExpectedOutside(s, Silent(what), e)
  {
    SilenceAgrees(s.radio, what);
  }

  lemma TimerAgrees(s: Nm, ev: Event, e: Env)
    requires ev.RemoveReady? || ev.RemoveTimer? || ev.ForeignRoute?
    ensures OnDirect(s, ev, e) == ExpectedOutside(s, ev, e)
  {}

  /** Every callback and timer that does not go through the event function agrees with the tables. */
  lemma CourseOutside(s: Nm, ev: Event, e: Env)
    requires Direct(ev)
    ensures OnDirect(s, ev, e) == ExpectedOutside(s, ev, e)
  {
    if ev.OperationDone? {
      AnswerAgrees(s, ev.op, ev.success, e);
    } else if ev.Silent? {
      QuietAgrees(s, ev.what, e);
    } else {
      TimerAgrees(s, ev, e);
    }
  }

  // ------------------------------------------------------------------ the outcome law of an inclusion

  /** The input hands its event to the event function. */
  predicate Posts(s: Nm, inp: Input) {
    match inp
    case FromPeer(p, ev) => FromClient(ev) && Admits(s, p)
    case Happens(ev) => !FromClient(ev) && !Direct(ev)
    case _ => false
  }

  /** The machine as the event function finds it: a client became the peer of an idle machine, or the radio has
      one report less to make. */
  function Seen(s: Nm, inp: Input, e: Env): Nm {
    match inp
    case FromPeer(p, _) => Engage(s, p)
    case Happens(ev) => Delivered(s, ev, e)
    case _ => s
  }

  /** A client engages an idle machine only; a report about a replacement is the only one about it, and an add or
      learn operation on which the radio has no more to report is over. */
  lemma SeenMeans(s: Nm, inp: Input, e: Env)
    requires Posts(s, inp)
    ensures var r, ev := s.radio, inp.ev;
            Seen(s, inp, e) ==
            s.(peer := if inp.FromPeer? && s.state.NmIdle? then inp.peer else s.peer,
               radio := r.(replacing := if ev.ReplaceDone? || ev.ReplaceFailed? then Minus(r.replacing)
                                        else r.replacing,
                           adding := r.adding && !((ev.AddStatusDone? || ev.AddFailed?) && e.quiet),
                           learning := r.learning && !((ev.LearnDone? || ev.LearnFailed?) && e.quiet)))
  {}

  lemma PostedCourse(s: Nm, inp: Input, e: Env)
    requires Posts(s, inp)
    ensures Reaction(s, inp, e) == Expected(Seen(s, inp, e), inp.ev, e)
    ensures Seen(s, inp, e) == s.(peer := Seen(s, inp, e).peer, radio := Seen(s, inp, e).radio)
  {
    Course(Seen(s, inp, e), inp.ev, e);
  }

  function OutcomeAt(s: Nm, inp: Input, e: Env): Outcome {
    if Posts(s, inp) then OutcomeOf(s, inp.ev, e) else Open
  }

  lemma DecidedTarget(s: Nm, ev: Event, e: Env)
    requires !OutcomeOf(s, ev, e).Open?
    ensures Target(s, ev, e) == if Doomed(s, ev, e) then SelfDestruct(Waiting, false) else WaitForProbeAfterAdd
  {}

  lemma DecidedSilently(s: Nm, ev: Event, e: Env)
    requires !OutcomeOf(s, ev, e).Open?
    ensures SpeechOf(s, ev, e).Nothing?
  {}

  lemma OpenTarget(s: Nm, ev: Event, e: Env)
    requires OutcomeOf(s, ev, e).Open? && !s.state.SelfDestruct?
    ensures !Target(s, ev, e).SelfDestruct?
    ensures Target(s, ev, e).WaitForProbeAfterAdd? ==> s.state.WaitForProbeAfterAdd?
  {}

  lemma DecidedLock(s: Nm, ev: Event, e: Env)
    requires !OutcomeOf(s, ev, e).Open?
    ensures LockedAfter(s, ev, e) == (s.locked && Doomed(s, ev, e))
  {}

  lemma DecidedKey(s: Nm, ev: Event, e: Env)
    requires !OutcomeOf(s, ev, e).Open?
    ensures FlagsAfter(s, ev, e).reportDsk <==>
            OutcomeOf(s, ev, e) == Good(true) || (s.flags.reportDsk && !s.state.ProxyInclusionWaitNif?)
  {}

  lemma SeenOutcome(s: Nm, d: Nm, ev: Event, e: Env)
    requires d == s.(peer := d.peer, radio := d.radio)
    ensures OutcomeOf(d, ev, e) == OutcomeOf(s, ev, e)
  {}

  /** What becomes of a node with a given outcome. The node is made to destroy itself exactly when a smart start
      inclusion fails. Every other outcome, and nothing else, leads to the interview, with the lock released, and
      with the key to be reported exactly if the node has S2 keys. */
  predicate Treated(s: Nm, o: Outcome, t: Nm) {
    && (t.state.SelfDestruct? <==> o.Bad? && s.flags.smartStart)
    && (t.state.SelfDestruct? ==> t.state == SelfDestruct(Waiting, false) && t.locked == s.locked)
    && (t.state.WaitForProbeAfterAdd? && o.Open? ==> s.state.WaitForProbeAfterAdd?)
    && (!o.Open? && !t.state.SelfDestruct? ==>
        && t.state.WaitForProbeAfterAdd? && !t.locked
        && (t.flags.reportDsk <==> o == Good(true) || (s.flags.reportDsk && !s.state.ProxyInclusionWaitNif?)))
  }

  lemma TreatedSaid(s: Nm, o: Outcome, m: Move, e: Env)
    requires Treated(s, o, m.t) && (!o.Open? ==> m.say.Nothing?)
    ensures Treated(s, o, Say(m, e))
  {}

  lemma TreatedPosted(s: Nm, ev: Event, e: Env)
    requires !s.state.SelfDestruct?
    ensures Treated(s, OutcomeOf(s, ev, e), Expected(s, ev, e).t)
    ensures !OutcomeOf(s, ev, e).Open? ==> Expected(s, ev, e).say.Nothing?
  {
    if OutcomeOf(s, ev, e).Open? {
      OpenTarget(s, ev, e);
    } else {
      DecidedTarget(s, ev, e);
      DecidedSilently(s, ev, e);
      DecidedLock(s, ev, e);
      DecidedKey(s, ev, e);
    }
  }

  lemma TreatedOutside(s: Nm, ev: Event, e: Env)
    requires !s.state.SelfDestruct?
    ensures Treated(s, Open, ExpectedOutside(s, ev, e).t)
  {}

  lemma TreatedReaction(s: Nm, inp: Input, e: Env)
    requires !s.state.SelfDestruct?
    ensures Treated(s, OutcomeAt(s, inp, e), Reaction(s, inp, e).t)
    ensures !OutcomeAt(s, inp, e).Open? ==> Reaction(s, inp, e).say.Nothing?
  {
    if Posts(s, inp) {
      PostedCourse(s, inp, e);
      TreatedPosted(Seen(s, inp, e), inp.ev, e);
      SeenOutcome(s, Seen(s, inp, e), inp.ev, e);
    } else if inp.Happens? && !FromClient(inp.ev) {
      CourseOutside(s, inp.ev, e);
      TreatedOutside(s, inp.ev, e);
    }
  }

  /** How an inclusion ends, input by input. */
  lemma InclusionEnds(s: Nm, inp: Input, e: Env)
    requires !s.state.SelfDestruct?
    ensures Treated(s, OutcomeAt(s, inp, e), Step(s, inp, e))
  {
    TreatedReaction(s, inp, e);
    TreatedSaid(s, OutcomeAt(s, inp, e), Reaction(s, inp, e), e);
  }

  // ------------------------------------------------------------------ a whole session

  lemma RunLast(s: Nm, h: seq<Happening>)
    requires |h| > 0
    ensures var n := |h| - 1; Run(s, h) == Step(Run(s, h[..n]), h[n].inp, h[n].e)
    decreases |h|
  {
    var n := |h| - 1;
    if n > 0 {
      RunLast(Step(s, h[0].inp, h[0].e), h[1..]);
      assert h[1..][..n - 1] == h[..n][1..];
    }
  }

  /** A smart start inclusion begins. */
  predicate Begins(s: Nm, inp: Input) {
    s.state.NmIdle? && inp == Happens(SmartStartFound(true))
  }

  /** Only a session carries the smart start flag, and not one that plays the radio's part. */
  predicate Clean(s: Nm) {
    s.flags.smartStart ==> !s.state.NmIdle? && !s.state.ProxyInclusionWaitNif?
  }

  /** The flag comes with the beginning of a smart start inclusion and goes with the end of its session. */
  predicate Flagged(s: Nm, begins: bool, t: Nm) {
    Clean(t) && (t.flags.smartStart <==> (s.flags.smartStart || begins) && !t.state.NmIdle?)
  }

  lemma FlaggedSaid(s: Nm, begins: bool, m: Move, e: Env)
    requires Flagged(s, begins, m.t)
    ensures Flagged(s, begins, Say(m, e))
  {}

  lemma IdleFlag(f: Flags, ev: Event)
    requires !f.smartStart
    ensures IdleFlags(f, ev).smartStart <==> ev == SmartStartFound(true)
  {}

  lemma SessionFlag(s: Nm, ev: Event, e: Env)
    requires !s.state.NmIdle? && !s.state.ProxyInclusionWaitNif?
    ensures FlagsAfter(s, ev, e).smartStart <==> s.flags.smartStart
  {
    assert Keyed(s, ev, e).smartStart == s.flags.smartStart;
  }

  lemma FlagAfter(s: Nm, ev: Event, e: Env)
    requires Clean(s)
    ensures FlagsAfter(s, ev, e).smartStart <==> s.flags.smartStart || (s.state.NmIdle? && ev == SmartStartFound(true))
  {
    if s.state.NmIdle? {
      IdleFlag(s.flags, ev);
    } else if !s.state.ProxyInclusionWaitNif? {
      SessionFlag(s, ev, e);
    }
  }

  lemma FlagStays(s: Nm, ev: Event, e: Env)
    requires !s.state.NmIdle? && !s.state.ProxyInclusionWaitNif?
    ensures !Target(s, ev, e).NmIdle? && !Target(s, ev, e).ProxyInclusionWaitNif?
  {
    if !OutcomeOf(s, ev, e).Open? {
      DecidedTarget(s, ev, e);
    }
  }

  lemma FlaggedPosted(s: Nm, ev: Event, e: Env)
    requires Clean(s)
    ensures Flagged(s, s.state.NmIdle? && ev == SmartStartFound(true), Expected(s, ev, e).t)
  {
    FlagAfter(s, ev, e);
    if s.flags.smartStart {
      FlagStays(s, ev, e);
    }
  }

  lemma FlaggedOutside(s: Nm, ev: Event, e: Env)
    requires Clean(s)
    ensures Flagged(s, false, ExpectedOutside(s, ev, e).t)
  {}

  lemma FlaggedReaction(s: Nm, inp: Input, e: Env)
    requires Clean(s)
    ensures Flagged(s, Begins(s, inp), Reaction(s, inp, e).t)
  {
    if Posts(s, inp) {
      PostedCourse(s, inp, e);
      FlaggedPosted(Seen(s, inp, e), inp.ev, e);
    } else if inp.Happens? && !FromClient(inp.ev) {
      CourseOutside(s, inp.ev, e);
      FlaggedOutside(s, inp.ev, e);
    }
  }

  lemma StepFlag(s: Nm, inp: Input, e: Env)
    requires Clean(s)
    ensures Flagged(s, Begins(s, inp), Step(s, inp, e))
  {
    FlaggedReaction(s, inp, e);
    FlaggedSaid(s, Begins(s, inp), Reaction(s, inp, e), e);
  }

  /** The state before input i. */
  function At(s: Nm, h: seq<Happening>, i: nat): Nm
    requires i <= |h|
  {
    Run(s, h[..i])
  }

  lemma AtStart(s: Nm, h: seq<Happening>)
    ensures At(s, h, 0) == s
  {}

  lemma AtNext(s: Nm, h: seq<Happening>, i: nat)
    requires i < |h|
    ensures At(s, h, i + 1) == Step(At(s, h, i), h[i].inp, h[i].e)
  {
    RunLast(s, h[..i + 1]);
    assert h[..i + 1][..i] == h[..i];
  }

  lemma {:induction false} StaysClean(s: Nm, h: seq<Happening>, i: nat)
    requires Clean(s) && i <= |h|
    ensures Clean(At(s, h, i))
  {
    if i > 0 {
      StaysClean(s, h, i - 1);
      AtNext(s, h, i - 1);
      StepFlag(At(s, h, i - 1), h[i - 1].inp, h[i - 1].e);
    }
  }

  /** The smart start inclusion that began at input k is still under way before input i. */
  ghost predicate SmartSince(s: Nm, h: seq<Happening>, k: nat, i: nat)
    requires k < i <= |h|
  {
    Begins(At(s, h, k), h[k].inp) && forall j :: k < j <= i ==> !At(s, h, j).state.NmIdle?
  }

  lemma SmartLonger(s: Nm, h: seq<Happening>, k: nat, i: nat)
    requires k < i < |h| && SmartSince(s, h, k, i) && !At(s, h, i + 1).state.NmIdle?
    ensures SmartSince(s, h, k, i + 1)
  {}

  lemma SmartStep(s: Nm, h: seq<Happening>, i: nat)
    requires Clean(s) && i < |h| && At(s, h, i + 1).flags.smartStart
    ensures Begins(At(s, h, i), h[i].inp) || At(s, h, i).flags.smartStart
    ensures !At(s, h, i + 1).state.NmIdle?
  {
    StaysClean(s, h, i);
    AtNext(s, h, i);
    StepFlag(At(s, h, i), h[i].inp, h[i].e);
  }

  lemma {:induction false} SmartSession(s: Nm, h: seq<Happening>, i: nat) returns (k: nat)
    requires Clean(s) && !s.flags.smartStart && i <= |h| && At(s, h, i).flags.smartStart
    ensures k < i && SmartSince(s, h, k, i)
  {
    AtStart(s, h);
    SmartStep(s, h, i - 1);
    if Begins(At(s, h, i - 1), h[i - 1].inp) {
      k := i - 1;
    } else {
      k := SmartSession(s, h, i - 1);
      SmartLonger(s, h, k, i - 1);
    }
  }

  /** A session that destroys its node is a smart start inclusion whose outcome was bad. */
  lemma {:induction false} SelfDestructIsEarned(s: Nm, h: seq<Happening>, i: nat) returns (k: nat, d: nat)
    requires Clean(s) && !s.flags.smartStart && !s.state.SelfDestruct? && i <= |h| && At(s, h, i).state.SelfDestruct?
    ensures k < d < i && SmartSince(s, h, k, i)
    ensures !At(s, h, d).state.SelfDestruct? && OutcomeAt(At(s, h, d), h[d].inp, h[d].e).Bad?
    ensures forall j :: d < j <= i ==> At(s, h, j).state.SelfDestruct?
  {
    AtStart(s, h);
    var u := At(s, h, i - 1);
    AtNext(s, h, i - 1);
    if u.state.SelfDestruct? {
      k, d := SelfDestructIsEarned(s, h, i - 1);
    } else {
      InclusionEnds(u, h[i - 1].inp, h[i - 1].e);
      k := SmartSession(s, h, i - 1);
      d := i - 1;
    }
  }

  // ------------------------------------------------------------------ the session peer

  /** The peer of a session is the one it was started with. */
  lemma PeerIsFixed(s: Nm, inp: Input, e: Env)
    requires !s.state.NmIdle?
    ensures Step(s, inp, e).peer == s.peer
    ensures inp.FromPeer? && inp.peer != s.peer ==> Step(s, inp, e) == s
  {
    PeerStays(s, inp, e);
    SayPeer(Reaction(s, inp, e), e);
  }

  /** An idle machine takes the client whose command it is given as its peer. */
  lemma PeerIsChosen(s: Nm, client: nat, ev: Event, e: Env)
    requires s.state.NmIdle? && FromClient(ev)
    ensures Step(s, FromPeer(client, ev), e).peer == client
  {
    PeerEngaged(s, client, ev, e);
    SayPeer(Reaction(s, FromPeer(client, ev), e), e);
  }

  lemma PeerEngaged(s: Nm, client: nat, ev: Event, e: Env)
    requires s.state.NmIdle? && FromClient(ev)
    ensures Reaction(s, FromPeer(client, ev), e).t.peer == client
  {
    IdleCourse(Engage(s, client), ev, e);
  }

  lemma SayPeer(m: Move, e: Env)
    ensures Say(m, e).peer == m.t.peer
  {}

  lemma PeerStays(s: Nm, inp: Input, e: Env)
    requires !s.state.NmIdle?
    ensures Reaction(s, inp, e).t.peer == s.peer
  {
    if Posts(s, inp) {
      PostedCourse(s, inp, e);
    } else if inp.Happens? && !FromClient(inp.ev) {
      CourseOutside(s, inp.ev, e);
    }
  }

  /** The run is idle at most at its end. */
  predicate InSession(s: Nm, h: seq<Happening>)
    decreases |h|
  {
    |h| == 0 || (!s.state.NmIdle? && InSession(Step(s, h[0].inp, h[0].e), h[1..]))
  }

  lemma {:induction false} SessionPeer(s: Nm, h: seq<Happening>)
    requires InSession(s, h)
    ensures Run(s, h).peer == s.peer
    decreases |h|
  {
    if |h| > 0 {
      PeerIsFixed(s, h[0].inp, h[0].e);
      SessionPeer(Step(s, h[0].inp, h[0].e), h[1..]);
    }
  }

  // ------------------------------------------------------------------ the network-update latch

  /** The input makes the machine wait for the network update. */
  predicate WaitsAt(s: Nm, inp: Input, e: Env) {
    if Posts(s, inp) then Waits(s, inp.ev, e)
    else inp.Happens? && !FromClient(inp.ev) && WaitsOutside(inp.ev, e)
  }

  const NO_NEWS := Offered(false, false, false)

  /** What an input brings to the latch. */
  function Brought(s: Nm, inp: Input, e: Env): Note {
    if inp.UpdateStatus? then Offered(inp.dhcp || e.allHaveIp, inp.probe, inp.virtual || e.bridgeBooted)
    else if WaitsAt(s, inp, e) then Arming(e) else NO_NEWS
  }

  lemma PostedLatch(s: Nm, d: Nm, ev: Event, e: Env)
    requires d == s.(peer := d.peer, radio := d.radio)
    ensures Waits(d, ev, e) == Waits(s, ev, e)
    ensures Waits(d, ev, e) ==> SpeechOf(d, ev, e) == if Updated(e) then Reply else Nothing
  {}

  /** The latch takes in what the input brings, and where the network update is reported or begins to be waited
      for, the reply is released exactly when the latch is then complete. */
  lemma Releases(s: Nm, inp: Input, e: Env)
    ensures Reaction(s, inp, e).t.latch == Marked(s.latch, Brought(s, inp, e))
    ensures inp.UpdateStatus? || WaitsAt(s, inp, e) ==>
              Reaction(s, inp, e).say == if Complete(Marked(s.latch, Brought(s, inp, e))) then Reply else Nothing
  {
    if Posts(s, inp) {
      PostedCourse(s, inp, e);
      PostedLatch(s, Seen(s, inp, e), inp.ev, e);
    } else if inp.Happens? && !FromClient(inp.ev) {
      CourseOutside(s, inp.ev, e);
    }
  }

  /** A status update: each flag is held from then on if it was held or is brought in, and the reply is released
      exactly when all three are and the latch is not disabled. */
  lemma UpdateReleases(s: Nm, dhcp: bool, probe: bool, virtual: bool, e: Env)
    ensures var m := Reaction(s, UpdateStatus(dhcp, probe, virtual), e);
            var l := m.t.latch;
            && (l.dhcp <==> s.latch.dhcp || dhcp || e.allHaveIp)
            && (l.probe <==> s.latch.probe || probe)
            && (l.virtual <==> s.latch.virtual || virtual || e.bridgeBooted)
            && (l.disabled <==> s.latch.disabled)
            && m == Move(s.(latch := l), if l.dhcp && l.probe && l.virtual && !l.disabled then Reply else Nothing)
  {}

  /** The machine forgets its session: it aborts it, or what it says is acknowledged at once. */
  predicate Forgets(m: Move, e: Env) {
    match m.say
    case Nothing => false
    case Abort => true
    case Reply => e.reply.Now?
    case Status => e.reply.Now? || m.t.flags.smartStart
  }

  /** What happened to the latch at an input. */
  function NoteOf(s: Nm, inp: Input, e: Env): Note {
    if Forgets(Reaction(s, inp, e), e) then Disabled else Brought(s, inp, e)
  }

  lemma SaidLatch(m: Move, e: Env)
    ensures Say(m, e).latch == if Forgets(m, e) then LATCH_DISABLED else m.t.latch
  {}

  lemma StepLatch(s: Nm, inp: Input, e: Env)
    ensures Step(s, inp, e).latch == Marked(s.latch, NoteOf(s, inp, e))
  {
    Releases(s, inp, e);
    SaidLatch(Reaction(s, inp, e), e);
  }

  /** What happened to the latch at each input of a run. */
  function Notes(s: Nm, h: seq<Happening>, i: nat): (log: seq<Note>)
    requires i <= |h|
    ensures |log| == i
  {
    if i == 0 then []
    else Notes(s, h, i - 1) + [NoteOf(At(s, h, i - 1), h[i - 1].inp, h[i - 1].e)]
  }

  lemma {:induction false} RunLatch(s: Nm, h: seq<Happening>, i: nat)
    requires i <= |h|
    ensures At(s, h, i).latch == After(s.latch, Notes(s, h, i))
  {
    if i == 0 {
      assert h[..0] == [];
    } else {
      RunLatch(s, h, i - 1);
      AtNext(s, h, i - 1);
      StepLatch(At(s, h, i - 1), h[i - 1].inp, h[i - 1].e);
      assert Notes(s, h, i)[..i - 1] == Notes(s, h, i - 1);
    }
  }

  /** Since boot, wherever the network update is reported or begins to be waited for, the reply is released exactly
      when it is earned: the last arming or reset among the inputs before was an arming, and each of the three
      flags came in with that input, a later one or this one. */
  lemma ReleaseIsEarned(s: Nm, h: seq<Happening>, i: nat)
    requires s.latch == BOOT_LATCH && i < |h|
    requires var u := At(s, h, i); h[i].inp.UpdateStatus? || WaitsAt(u, h[i].inp, h[i].e)
    ensures var u := At(s, h, i);
            Reaction(u, h[i].inp, h[i].e).say.Reply? <==> Earned(Notes(s, h, i) + [Brought(u, h[i].inp, h[i].e)])
  {
    var u := At(s, h, i);
    var log := Notes(s, h, i) + [Brought(u, h[i].inp, h[i].e)];
    RunLatch(s, h, i);
    Releases(u, h[i].inp, h[i].e);
    assert log[..i] == Notes(s, h, i);
    DueIsEarned(log);
  }
}
