/** The network management state machine (src/CC_NetworkManagement.c): who holds the probe lock, who the
    session peer is, and when the network-update latch releases a reply.

    `Step` is one top-level event, with everything the code asks of its surroundings during the event
    given by `Env`. `Radio` holds what can still call back: the callbacks registered in the slots of the
    serial interface, the answers the radio owes, and the timers of node removals. Many of these act in
    whatever state they find the machine. A reply's completion (ResetState) runs from inside the send, as over
    UDP, arrives later as an event of its own, as while a DTLS handshake lasts, or never comes, as for a client
    behind the portal. */
module NetworkManagement {
  import opened UpdateLatch

  datatype NmState =
    | NmIdle | WaitingForAdd | NodeFound | WaitForProtocol | WaitForSecureAdd
    | PrepareSucInclusion | WaitForSucInclusion | ProxyInclusionWaitNif
    | WaitForProbeAfterAdd | WaitDhcp | ReplaceFailedReq
    | LearnMode | LearnModeStarted | WaitForSecureLearn | WaitForMdns | WaitForProbeBySis | WaitForOurProbe
    | SetDefault | WaitingForProbe
    | SelfDestruct(stage: Stage, retry: bool)
    | Busy(op: Operation)

  /** NM_WAIT_FOR_SELF_DESTRUCT, NM_WAIT_FOR_TX_TO_SELF_DESTRUCT, NM_WAIT_FOR_SELF_DESTRUCT_REMOVAL, each of
      which also exists as a retry. */
  datatype Stage = Waiting | Transmitting | Removing

  /** The commands that wait for a single protocol callback and then reply. */
  datatype Operation =
    | SendingNodeInfo | NetworkUpdate | NodeRemoval | RemovingAssociations | FailNodeRemoval
    | NeighborUpdate | ReturnRouteAssign | ReturnRouteDelete | NodeInfoProbe

  datatype Command = NoCommand | NodeAdd | FailedNodeReplace

  datatype Flags = Flags(
    s2Add: bool, proxy: bool, learnNew: bool, nwi: bool, nwe: bool, replication: bool, smartStart: bool,
    reportDsk: bool)

  /** Answers still owed for a function of the radio whose callback slot several parties use: the slot holds
      the command's callback or another one, and an answer goes to whichever it holds. */
  datatype Line = Line(mine: bool, open: nat)

  /** What may still call back (src/serialapi/Serialapi.c keeps one callback slot per function and drops a
      callback whose slot is empty; src/serialapi/Serialapi.c:246-284 are the timers).
      adding, learning: the callback is registered and the radio may still report to it;
      replacing: replacements not yet answered, whose slot is never emptied;
      pending: operations not yet answered whose slot is used by their command alone;
      removing: a node removal is registered; timer: the timer its handle names is armed; forgotten: the
      armed timers of removals whose handle was overwritten;
      assign, failed: the slots of return route assignment and of failed node removal. */
  datatype Radio = Radio(
    adding: bool, learning: bool, replacing: nat, pending: multiset<Query>, removing: bool, timer: bool,
    forgotten: nat, assign: Line, failed: Line)

  type Query = op: Operation | Sole(op) witness SendingNodeInfo

  const SILENT := Radio(false, false, 0, multiset{}, false, false, 0, Line(false, 0), Line(false, 0))

  /** Why something will not call back after all: the radio has nothing more to report, another party emptied
      the slot or stopped the timer, or a DTLS session with a reply in its queue was closed or given another
      callback. */
  datatype Silence =
    | ReplySilent | AddSilent | LearnSilent | ReplaceSilent | AnswerSilent(op: Query) | RemoveSilent | TimerSilent
    | ForgottenSilent | AssignSilent | FailedSilent

  datatype Nm = Nm(
    state: NmState, flags: Flags, cmd: Command, peer: nat, locked: bool, latch: Latch,
    replies: nat, radio: Radio, learnCount: nat)

  const NO_FLAGS := Flags(false, false, false, false, false, false, false, false)
  datatype LearnKind = Classic | Nwi | Nwe | Disable | UnknownKind

  datatype Event =
    // from a client, through the command handler
    | LearnSet(kind: LearnKind, wantInterview: bool) | AddNode(s2: bool) | AddStop
    | ReplaceStart(s2: bool) | ReplaceStop | RequestList | FactoryReset | Begin(op: Operation) | RemoveStop
    | SecurityInput
    // from the radio and the rest of the gateway
    | SmartStartFound(provisioned: bool) | SmartStartReject | SmartStartInit | StartProxy(replace: bool)
    | AddNodeFound | NodeAdded(valid: bool) | AddProtocolDone | AddStatusDone | AddFailed
    | ReplaceDone | ReplaceFailed
    | Timeout | SecurityDone(bad: bool, s2: bool) | NodeProbeDone(awaited: bool) | DhcpDone(awaited: bool)
    | MdnsExit | ProxyComplete | NodeInfo(valid: bool) | FrameReceived | AllProbed
    | SelfDestructTxDone | SelfDestructRemoved | SelfDestructNotRemoved
    | LearnStarted | LearnDone | LearnFailed
    | OperationDone(op: Operation, success: bool) | VirtualNodesRemoved
    | RemoveReady | RemoveTimer(forgotten: bool) | ForeignRoute(started: bool) | Silent(what: Silence)

  /** What the surroundings answer during one event. */
  datatype Env = Env(
    reply: ReplyKind,     // when a reply sent during the event completes
    restart: Restart,     // what becomes of smart start when the machine becomes idle
    started: bool,        // the radio accepts the replace or remove-failed request
    accepted: bool,       // the transport accepts the frame
    nodeKnown: bool,      // the node is in the resource directory already
    sucIncludes: bool,    // another node is SUC and supports the inclusion controller class
    wantsS2: bool, wantsS0: bool,  // security classes to start for the node
    knownBad: bool, hasS2: bool,   // security flags on record when no bootstrapping takes place
    handoverRefused: bool, hasUnsolicited: bool,
    hasIp: bool,          // an address is assigned already, or IPv4 is disabled
    excluded: bool, newNetwork: bool,
    bridgeReady: bool,    // bridge initialised, or this gateway is not the SUC
    allHaveIp: bool, bridgeBooted: bool,
    timerFree: bool,      // a timer for the network update could be started
    newNodes: bool,       // the network update found nodes to probe
    quiet: bool)          // the radio has no more to report on the add or learn operation it reports on

  /** Inside the send, by a later event, or not at all (src/ZW_udp_server.c:299-372). */
  datatype ReplyKind = Now | Later | Never

  /** Smart start is disabled or put off, has nothing to listen for, or listens for nodes. */
  datatype Restart = Untouched | Stopped | Listening

  // ------------------------------------------------------- what the machine says

  /** What an event leads the machine to say at its end: nothing, a reply (nm_send_reply), the status of an add
      or a replacement (the send_reply label), or the end of the session without a word (ResetState). */
  datatype Speech = Nothing | Reply | Status | Abort

  /** What an event does: the changes it makes, and what is said then. */
  datatype Move = Move(t: Nm, say: Speech)

  function Just(t: Nm): Move {
    Move(t, Nothing)
  }

  /** The add callback is deregistered, or registered. */
  function NoAdding(s: Nm): Radio {
    s.radio.(adding := false)
  }

  function Adding(s: Nm): Radio {
    s.radio.(adding := true)
  }

  /** NetworkManagement_smart_start_init_if_pending, in an idle machine. */
  function Restarted(s: Nm, e: Env): Radio {
    match e.restart
    case Untouched => s.radio
    case Stopped => NoAdding(s)
    case Listening => Adding(s)
  }

  /** ResetState. */
  function Reset(s: Nm, e: Env): Nm {
    s.(state := NmIdle, flags := NO_FLAGS, cmd := NoCommand, latch := LATCH_DISABLED, radio := Restarted(s, e))
  }

  /** nm_send_reply. */
  function SendReply(s: Nm, e: Env): Nm {
    match e.reply
    case Now => Reset(s, e)
    case Later => s.(replies := s.replies + 1)
    case Never => s
  }

  /** A smart start status goes to the unsolicited destinations, whose callback is faked at once. */
  function Say(m: Move, e: Env): Nm {
    match m.say
    case Nothing => m.t
    case Abort => Reset(m.t, e)
    case Reply => SendReply(m.t, e)
    case Status => if m.t.flags.smartStart then Reset(m.t, e) else SendReply(m.t, e)
  }

  /** NetworkManagement_NetworkUpdateStatusUpdate. */
  function Update(s: Nm, dhcp: bool, probe: bool, virtual: bool, e: Env): Move {
    var t := s.(latch := Offer(s.latch, dhcp || e.allHaveIp, probe, virtual || e.bridgeBooted));
    Move(t, if Complete(t.latch) then Reply else Nothing)
  }

  /** SendReplyWhenNetworkIsUpdated. */
  function ReplyWhenUpdated(s: Nm, e: Env): Move {
    var t := s.(state := WaitingForProbe, latch := Latch(false, false, e.bridgeReady, false), locked := false);
    if e.timerFree then Just(t) else Update(t, true, true, false, e)
  }

  // ------------------------------------------------------------------ add, replace

  /** NM_WAIT_FOR_SECURE_ADD once the outcome of the security bootstrapping is known. */
  function SecureAddEnds(s: Nm, bad: bool, s2: bool): Nm {
    if s.flags.smartStart && bad then s.(state := SelfDestruct(Waiting, false))
    else s.(state := WaitForProbeAfterAdd, locked := false,
            flags := s.flags.(reportDsk := s.flags.reportDsk || (s2 && !bad)))
  }

  /** The node has joined: hand it to the SUC, bootstrap its security, or take it as it is. */
  function Joined(s: Nm, e: Env): Nm {
    var t := s.(state := WaitForSecureAdd, locked := true);
    if e.sucIncludes then t.(state := PrepareSucInclusion)
    else if (s.flags.s2Add && e.wantsS2) || e.wantsS0 then t
    else SecureAddEnds(t, false, false)
  }

  function AddEnds(s: Nm, e: Env): Nm {
    var t := s.(radio := NoAdding(s));
    if e.nodeKnown && !s.flags.proxy then SecureAddEnds(t, e.knownBad, e.hasS2) else Joined(t, e)
  }

  /** A failed add: the radio is stopped without a callback, the probe lock released, the failure reported. */
  function AddFails(s: Nm): Move {
    Move(s.(radio := NoAdding(s), locked := false), Status)
  }

  function OnWaitForProtocol(s: Nm, ev: Event, e: Env): Move {
    if ev.AddProtocolDone? then Just(s.(radio := Adding(s)))
    else if ev.AddStatusDone? then Just(AddEnds(s, e))
    else if ev.Timeout? || ev.AddFailed? then AddFails(s) else Just(s)
  }

  function OnNodeFound(s: Nm, ev: Event): Move {
    if ev.NodeAdded? && ev.valid then Just(s.(state := WaitForProtocol))
    else if ev.NodeAdded? || ev.AddFailed? || ev.Timeout? then AddFails(s) else Just(s)
  }

  function OnReplaceFailedReq(s: Nm, ev: Event, e: Env): Move {
    if ev.Timeout? || ev.ReplaceStop? || ev.ReplaceFailed? then Move(s.(radio := NoAdding(s)), Status)
    else if ev.ReplaceDone? then Just(Joined(s, e)) else Just(s)
  }

  /** Proxy inclusion simulates the radio's progress through an add. */
  function ProxyAdds(s: Nm, valid: bool, e: Env): Move {
    if valid then Just(AddEnds(s.(state := WaitForProtocol), e)) else AddFails(s)
  }

  function OnProxyWaitNif(s: Nm, ev: Event, e: Env): Move {
    var t := s.(flags := NO_FLAGS.(s2Add := true, proxy := true));
    if ev.Timeout? then Just(s.(state := NmIdle))
    else if !ev.NodeInfo? then Just(s)
    else if s.cmd == NodeAdd then ProxyAdds(t.(state := NodeFound), ev.valid, e)
    else Just(Joined(t.(state := ReplaceFailedReq), e))
  }

  /** A stopped add keeps its callback, or registers it again. */
  function OnWaitingForAdd(s: Nm, ev: Event): Move {
    if ev.AddStop? || ev.Timeout? then Move(s.(radio := Adding(s)), Status)
    else if ev.AddNodeFound? then Just(s.(state := NodeFound)) else Just(s)
  }

  function OnWaitForSecureAdd(s: Nm, ev: Event): Nm {
    if ev.SecurityDone? then SecureAddEnds(s, ev.bad, ev.s2)
    else if ev.AddStop? || ev.Timeout? then SecureAddEnds(s, true, false) else s
  }

  function OnPrepareSucInclusion(s: Nm, ev: Event, e: Env): Nm {
    if !ev.Timeout? then s
    else if e.handoverRefused then SecureAddEnds(s.(state := WaitForSecureAdd), false, e.hasS2)
    else s.(state := WaitForSucInclusion)
  }

  function OnWaitForSucInclusion(s: Nm, ev: Event, e: Env): Nm {
    if ev.ProxyComplete? then SecureAddEnds(s.(state := WaitForSecureAdd), false, e.hasS2) else s
  }

  function OnWaitForProbeAfterAdd(s: Nm, ev: Event, e: Env): Move {
    if !ev.NodeProbeDone? || !ev.awaited then Just(s)
    else Move(s.(state := WaitDhcp), if e.hasIp then Status else Nothing)
  }

  function OnWaitDhcp(s: Nm, ev: Event): Move {
    Move(s, if (ev.DhcpDone? && ev.awaited) || ev.Timeout? then Status else Nothing)
  }

  function OnAdd(s: Nm, ev: Event, e: Env): Move {
    var st := s.state;
    if st.WaitingForAdd? then OnWaitingForAdd(s, ev)
    else if st.NodeFound? then OnNodeFound(s, ev)
    else if st.WaitForProtocol? then OnWaitForProtocol(s, ev, e)
    else if st.ReplaceFailedReq? then OnReplaceFailedReq(s, ev, e)
    else if st.ProxyInclusionWaitNif? then OnProxyWaitNif(s, ev, e)
    else if st.PrepareSucInclusion? then Just(OnPrepareSucInclusion(s, ev, e))
    else if st.WaitForSucInclusion? then Just(OnWaitForSucInclusion(s, ev, e))
    else if st.WaitForSecureAdd? then Just(OnWaitForSecureAdd(s, ev))
    else if st.WaitForProbeAfterAdd? then OnWaitForProbeAfterAdd(s, ev, e)
    else if st.WaitDhcp? then OnWaitDhcp(s, ev) else Just(s)
  }

  // ---------------------------------------------------------------- self destruct

  function RemovalFailed(s: Nm, retry: bool): Move {
    if !retry then Just(s.(state := SelfDestruct(Waiting, true))) else Move(s.(locked := false), Abort)
  }

  /** A failed node removal, for a command or a self-destructing node: the slot is taken also when the radio
      refuses. */
  function Taken(r: Radio, command: bool, started: bool): Radio {
    r.(failed := Line(command, r.failed.open + if started then 1 else 0))
  }

  function RemovalStarts(s: Nm, retry: bool, e: Env): Move {
    var t := s.(state := SelfDestruct(Removing, retry), radio := Taken(s.radio, false, e.started));
    if e.started then Just(t) else RemovalFailed(t, retry)
  }

  function OnSelfDestruct(s: Nm, ev: Event, e: Env): Move
    requires s.state.SelfDestruct?
  {
    var retry := s.state.retry;
    match s.state.stage
    case Waiting => OnSelfDestructTimer(s, retry, ev, e)
    case Transmitting => if ev.SelfDestructTxDone? then RemovalStarts(s, retry, e) else Just(s)
    case Removing => OnRemoving(s, retry, ev)
  }

  function OnSelfDestructTimer(s: Nm, retry: bool, ev: Event, e: Env): Move {
    if !ev.Timeout? then Just(s)
    else if e.accepted then Just(s.(state := SelfDestruct(Transmitting, retry)))
    else RemovalStarts(s, retry, e)
  }

  function OnRemoving(s: Nm, retry: bool, ev: Event): Move {
    if ev.SelfDestructRemoved? || ev.Timeout? then Move(s.(locked := false), Abort)
    else if ev.SelfDestructNotRemoved? then RemovalFailed(s, retry) else Just(s)
  }

  // ------------------------------------------------------------------------ learn

  /** LearnModeStatus(LEARN_MODE_FAILED). */
  function LearnFails(s: Nm): Move {
    Move(s.(locked := false), Reply)
  }

  /** LearnTimerExpired deregisters the callback: a report the radio had queued is dropped. */
  function LearnCancelled(s: Nm): Move {
    LearnFails(s.(radio := s.radio.(learning := false)))
  }

  function OnLearnMode(s: Nm, ev: Event, e: Env): Move {
    if ev.Timeout? then
      if (s.flags.nwi || s.flags.nwe) && s.learnCount < 4 then
        Just(s.(learnCount := s.learnCount + 1,
                radio := if s.learnCount == 0 then s.radio.(learning := true) else s.radio))
      else LearnCancelled(s)
    else if ev.LearnSet? && ev.kind.Disable? then LearnCancelled(s)
    else if ev.LearnStarted? then Just(s.(state := LearnModeStarted, locked := true))
    else if ev.LearnDone? then Just(LearnEnds(s, e))
    else if ev.LearnFailed? then LearnFails(s) else Just(s)
  }

  function OnLearnModeStarted(s: Nm, ev: Event, e: Env): Move {
    if ev.LearnStarted? then Just(s.(locked := true))
    else if ev.LearnDone? then Just(LearnEnds(s, e))
    else if ev.LearnFailed? then LearnFails(s) else Just(s)
  }

  function OnLearn(s: Nm, ev: Event, e: Env): Move {
    if s.state.LearnMode? then OnLearnMode(s, ev, e)
    else if s.state.LearnModeStarted? then OnLearnModeStarted(s, ev, e)
    else AfterLearn(s, ev, e)
  }

  /** Learn mode is over: security, the mDNS goodbye, the interview by the SIS and our own. */
  function AfterLearn(s: Nm, ev: Event, e: Env): Move {
    var st := s.state;
    if st.WaitForSecureLearn? && ev.SecurityDone? then Just(s.(state := WaitForMdns))
    else if st.WaitForMdns? && ev.MdnsExit? && s.flags.learnNew then Just(s.(state := WaitForProbeBySis))
    else if st.WaitForMdns? && ev.MdnsExit? then ReplyWhenUpdated(s, e)
    else if st.WaitForProbeBySis? && ev.Timeout? then Just(s.(state := WaitForOurProbe))
    else if st.WaitForOurProbe? && ev.AllProbed? && s.flags.learnNew then ReplyWhenUpdated(s, e)
    else if st.SetDefault? && ev.MdnsExit? then ReplyWhenUpdated(s, e)
    else Just(s)
  }

  /** LearnModeStatus(LEARN_MODE_DONE): excluded, included in a new network, or a replication. */
  function LearnEnds(s: Nm, e: Env): Nm {
    if e.excluded then s.(state := SetDefault)
    else if e.newNetwork then s.(state := WaitForSecureLearn)
    else s.(state := WaitForMdns, flags := s.flags.(replication := true))
  }

  // ------------------------------------------------------------------------- idle

  const UNSOLICITED: nat := 0

  /** The session peer becomes the unsolicited destination, if one is configured. */
  function ToUnsolicited(s: Nm, e: Env): Nm {
    if e.hasUnsolicited then s.(peer := UNSOLICITED) else s
  }

  function OnIdle(s: Nm, ev: Event, e: Env): Move {
    if ev.LearnSet? then LearnBegins(s, ev.kind, ev.wantInterview)
    else if ev.AddNode? then
      Just(s.(state := WaitingForAdd, cmd := NodeAdd, radio := Adding(s),
              flags := if ev.s2 then NO_FLAGS.(s2Add := true) else s.flags))
    else if ev.SmartStartFound? then SmartStartBegins(ToUnsolicited(s, e), ev.provisioned)
    else if ev.SmartStartReject? then Move(s, Abort)
    else if ev.SmartStartInit? then Just(s.(radio := Restarted(s, e)))
    else if ev.ReplaceStart? then ReplaceBegins(s, ev.s2, e)
    else if ev.ReplaceStop? then Move(s.(state := ReplaceFailedReq, cmd := FailedNodeReplace), Status)
    else if ev.RequestList? then Move(s, Reply)
    else if ev.AddStop? then Move(s, Status)
    else if ev.StartProxy? then
      Just(ToUnsolicited(s, e).(state := ProxyInclusionWaitNif,
                                cmd := if ev.replace then FailedNodeReplace else NodeAdd))
    else if ev.FactoryReset? then Just(s.(state := SetDefault))
    else if ev.RemoveStop? then RemovalEnds(s, false)
    else if ev.Begin? then BeginOperation(s, ev.op, e)
    else Just(s)
  }

  function SmartStartBegins(s: Nm, provisioned: bool): Move {
    if !provisioned then Just(s)
    else Just(s.(state := WaitingForAdd, cmd := NodeAdd, radio := Adding(s),
                 flags := NO_FLAGS.(s2Add := true, smartStart := true)))
  }

  function LearnBegins(s: Nm, kind: LearnKind, wantInterview: bool): Move {
    if kind.Disable? then Move(s, Reply)
    else if kind.UnknownKind? then Just(s)
    else Just(s.(state := LearnMode, learnCount := 0, radio := NoAdding(s).(learning := true),
                 flags := NO_FLAGS.(nwi := kind.Nwi?, nwe := kind.Nwe?, learnNew := wantInterview && !kind.Nwe?)))
  }

  function ReplaceBegins(s: Nm, s2: bool, e: Env): Move {
    var t := s.(state := ReplaceFailedReq, cmd := FailedNodeReplace,
                flags := if s2 then NO_FLAGS.(s2Add := true) else s.flags, radio := NoAdding(s));
    if e.started then Just(t.(radio := t.radio.(replacing := t.radio.replacing + 1))) else Move(t, Status)
  }

  /** The operations whose callbacks test no state. */
  predicate Unguarded(op: Operation) {
    Sole(op) || op.NodeRemoval? || op.FailNodeRemoval? || op.ReturnRouteAssign?
  }

  /** Of these, the ones whose callback slot nobody else uses, and which are simply answered. */
  predicate Sole(op: Operation) {
    op.SendingNodeInfo? || op.NetworkUpdate? || op.ReturnRouteDelete?
  }

  function More(s: Nm, op: Query): Radio {
    s.radio.(pending := s.radio.pending + multiset{op})
  }

  function Less(s: Nm, op: Query): Radio {
    s.radio.(pending := s.radio.pending - multiset{op})
  }

  /** Another answer has come. */
  function Served(l: Line): Line {
    l.(open := if l.open > 0 then l.open - 1 else 0)
  }

  /** A route assignment, for a command or for another module: the slot is taken also when the radio refuses. */
  function Routed(r: Radio, command: bool, started: bool): Radio {
    r.(assign := Line(command, r.assign.open + if started then 1 else 0))
  }

  /** What an accepted or refused request leaves to be answered. */
  function Asked(s: Nm, op: Operation, accepted: bool): Radio {
    if op.ReturnRouteAssign? then Routed(s.radio, true, accepted)
    else if op.FailNodeRemoval? then Taken(s.radio, true, accepted)
    else if ((op.ReturnRouteDelete? || op.NetworkUpdate?) && accepted) || op.SendingNodeInfo? then More(s, op)
    else if op.NodeRemoval? then s.radio.(removing := true) else s.radio
  }

  /** A command that needs one answer from the radio; what it does when the radio or the cache can answer
      at once differs from command to command. The callback for sent node information comes even if the call
      returns that it was not accepted, as the serial interface always does. */
  function BeginOperation(s: Nm, op: Operation, e: Env): Move {
    var t := s.(radio := Asked(s, op, e.accepted));
    if op.RemovingAssociations? then Just(s)
    else if op.NodeRemoval? || op.NeighborUpdate? then Just(t.(state := Busy(op)))
    else if op.NodeInfoProbe? then
      if e.accepted then Just(t.(state := Busy(op), locked := false)) else Move(t, Reply)
    else if op.SendingNodeInfo? then
      if e.accepted then Just(t.(state := Busy(op))) else Move(t, Abort)
    else if op.NetworkUpdate? then
      if e.accepted then Just(t.(state := Busy(op))) else NetworkUpdateEnds(t, e)
    else Move(t.(state := Busy(op)), if e.accepted then Nothing else Reply)
  }

  function NetworkUpdateEnds(s: Nm, e: Env): Move {
    if e.newNodes then ReplyWhenUpdated(s, e) else Move(s, Reply)
  }

  /** A node removal ends: by the radio's report, by its timer, by a forgotten timer or by a client. The timer
      the handle names is cancelled and the callback deregistered; forgotten timers run on. */
  function RemovalEnds(s: Nm, removed: bool): Move {
    Move(s.(radio := s.radio.(removing := false, timer := false),
            state := if removed then Busy(RemovingAssociations) else s.state), Reply)
  }

  /** The radio is ready to remove a node: a timer is started, and one already running is forgotten. */
  function RemovalReady(s: Nm, e: Env): Nm {
    s.(radio := s.radio.(timer := e.timerFree, forgotten := s.radio.forgotten + if s.radio.timer then 1 else 0))
  }

  function TimerFires(s: Nm, forgotten: bool): Move {
    RemovalEnds(if forgotten && s.radio.forgotten > 0 then
                  s.(radio := s.radio.(forgotten := s.radio.forgotten - 1))
                else s, false)
  }

  /** The radio answers a failed node removal: to the command, or to the self-destruct sequence. */
  function FailedAnswered(s: Nm, success: bool, e: Env): Move {
    var t := s.(radio := s.radio.(failed := Served(s.radio.failed)));
    if s.radio.failed.mine then Move(t, Reply)
    else if t.state.SelfDestruct? then
      OnSelfDestruct(t, if success then SelfDestructRemoved else SelfDestructNotRemoved, e)
    else Just(t)
  }

  /** The radio answers an operation, in whatever state the machine is by then. */
  function Answered(s: Nm, op: Operation, success: bool, e: Env): Move
    requires Unguarded(op)
  {
    if op.NodeRemoval? then RemovalEnds(s, success)
    else if op.FailNodeRemoval? then FailedAnswered(s, success, e)
    else if op.ReturnRouteAssign? then
      Move(s.(radio := s.radio.(assign := Served(s.radio.assign))), if s.radio.assign.mine then Reply else Nothing)
    else QueryAnswered(s, op, e)
  }

  function QueryAnswered(s: Nm, op: Query, e: Env): Move {
    var t := s.(radio := Less(s, op));
    if op.SendingNodeInfo? then Move(t, Abort)
    else if op.NetworkUpdate? then NetworkUpdateEnds(t, e)
    else Move(t, Reply)
  }

  /** What the machine itself does while it waits for one answer. */
  function OnBusy(s: Nm, ev: Event, e: Env): Move
    requires s.state.Busy?
  {
    var op := s.state.op;
    if op.RemovingAssociations? then Move(s, if ev.VirtualNodesRemoved? then Reply else Nothing)
    else if op.NodeRemoval? then
      if ev.RemoveStop? then RemovalEnds(s, false)
      else if ev.Begin? && ev.op.NodeRemoval? then BeginOperation(s, NodeRemoval, e) else Just(s)
    else if op.NeighborUpdate? then
      Move(s, if ev.Timeout? || (ev.OperationDone? && ev.op.NeighborUpdate?) then Reply else Nothing)
    else if op.NodeInfoProbe? then
      Move(s, if ev.OperationDone? && ev.op.NodeInfoProbe? then Reply else Nothing)
    else Just(s)
  }

  // -------------------------------------------------------------------------- step

  /** The states of learn mode and of a factory reset. */
  predicate Learnish(st: NmState) {
    st.LearnMode? || st.LearnModeStarted? || st.WaitForSecureLearn? || st.WaitForMdns? || st.WaitForProbeBySis? ||
    st.WaitForOurProbe? || st.SetDefault?
  }

  function PostMove(s: Nm, ev: Event, e: Env): Move {
    if s.state.NmIdle? then OnIdle(s, ev, e)
    else if s.state.Busy? then OnBusy(s, ev, e)
    else if s.state.SelfDestruct? then OnSelfDestruct(s, ev, e)
    else if Learnish(s.state) then OnLearn(s, ev, e)
    else OnAdd(s, ev, e)
  }

  /** nm_fsm_post_event. */
  function Post(s: Nm, ev: Event, e: Env): Nm {
    Say(PostMove(s, ev, e), e)
  }

  predicate FromClient(ev: Event) {
    ev.LearnSet? || ev.AddNode? || ev.AddStop? || ev.ReplaceStart? || ev.ReplaceStop? || ev.RequestList? ||
    ev.FactoryReset? || ev.Begin? || ev.RemoveStop? || ev.SecurityInput?
  }

  datatype Input =
    | FromPeer(peer: nat, ev: Event)
    | Happens(ev: Event)
    | UpdateStatus(dhcp: bool, probe: bool, virtual: bool)
    | ReplyDone

  /** An idle machine takes any client as its peer; a session listens to its peer only. */
  predicate Admits(s: Nm, client: nat) {
    s.state.NmIdle? || client == s.peer
  }

  function Engage(s: Nm, client: nat): Nm {
    if s.state.NmIdle? then s.(peer := client) else s
  }

  /** What a report of the radio leaves to be reported. */
  function Delivered(s: Nm, ev: Event, e: Env): Nm {
    if (ev.ReplaceDone? || ev.ReplaceFailed?) && s.radio.replacing > 0 then
      s.(radio := s.radio.(replacing := s.radio.replacing - 1))
    else if (ev.AddStatusDone? || ev.AddFailed?) && e.quiet then s.(radio := NoAdding(s))
    else if (ev.LearnDone? || ev.LearnFailed?) && e.quiet then s.(radio := s.radio.(learning := false))
    else s
  }

  function Silenced(r: Radio, what: Silence): Radio {
    match what
    case ReplySilent => r
    case AddSilent => r.(adding := false)
    case LearnSilent => r.(learning := false)
    case ReplaceSilent => r.(replacing := if r.replacing > 0 then r.replacing - 1 else 0)
    case AnswerSilent(op) => r.(pending := r.pending - multiset{op})
    case RemoveSilent => r.(removing := false)
    case TimerSilent => r.(timer := false)
    case ForgottenSilent => r.(forgotten := if r.forgotten > 0 then r.forgotten - 1 else 0)
    case AssignSilent => r.(assign := Served(r.assign))
    case FailedSilent => r.(failed := Served(r.failed))
  }

  /** The callbacks and timers that do not go through the event function. */
  predicate Direct(ev: Event) {
    (ev.OperationDone? && Unguarded(ev.op)) || ev.RemoveReady? || ev.RemoveTimer? || ev.ForeignRoute? || ev.Silent?
  }

  function OnDirect(s: Nm, ev: Event, e: Env): Move
    requires Direct(ev)
  {
    if ev.OperationDone? then Answered(s, ev.op, ev.success, e)
    else if ev.RemoveReady? then Just(RemovalReady(s, e))
    else if ev.RemoveTimer? then TimerFires(s, ev.forgotten)
    else if ev.ForeignRoute? then Just(s.(radio := Routed(s.radio, false, ev.started)))
    else
      var lost := if ev.what.ReplySilent? && s.replies > 0 then 1 else 0;
      Just(s.(radio := Silenced(s.radio, ev.what), replies := s.replies - lost))
  }

  /** What an event does, whichever way it comes. */
  function MoveOf(s: Nm, ev: Event, e: Env): Move {
    if Direct(ev) then OnDirect(s, ev, e) else PostMove(Delivered(s, ev, e), ev, e)
  }

  /** What an input makes the machine do and say. */
  function Reaction(s: Nm, inp: Input, e: Env): Move {
    match inp
    case FromPeer(p, ev) => if FromClient(ev) && Admits(s, p) then PostMove(Engage(s, p), ev, e) else Just(s)
    case Happens(ev) => if FromClient(ev) then Just(s) else MoveOf(s, ev, e)
    case UpdateStatus(dhcp, probe, virtual) => Update(s, dhcp, probe, virtual, e)
    case ReplyDone => if s.replies == 0 then Just(s) else Move(s.(replies := s.replies - 1), Abort)
  }

  function Step(s: Nm, inp: Input, e: Env): Nm {
    Say(Reaction(s, inp, e), e)
  }

  // --------------------------------------------------------------- the probe lock

  /** States a session can be in while it holds the probe lock. */
  predicate LockState(st: NmState) {
    st.WaitForSecureAdd? || st.PrepareSucInclusion? || st.WaitForSucInclusion? || st.SelfDestruct? ||
    (Learnish(st) && !st.LearnMode?)
  }

  /** The session is on its way to taking the probe lock: the radio can still deliver what takes it. */
  predicate CanLock(s: Nm) {
    var st := s.state;
    || ((st.WaitingForAdd? || st.NodeFound? || st.WaitForProtocol?) && s.radio.adding)
    || (st.ReplaceFailedReq? && s.radio.replacing > 0)
    || ((st.LearnMode? || st.LearnModeStarted?) && s.radio.learning)
    || st.ProxyInclusionWaitNif?
  }

  /** The radio calls back only what is registered and answers once; timers fire once, while armed. A removal's
      answer reaches the self-destruct sequence only through its slot. */
  predicate RadioKeeps(s: Nm, inp: Input) {
    !inp.Happens? ||
    var ev, r := inp.ev, s.radio;
    && (ev.AddNodeFound? || ev.NodeAdded? || ev.AddProtocolDone? || ev.AddStatusDone? ==> r.adding)
    && (ev.ReplaceDone? ==> r.replacing > 0)
    && (ev.LearnStarted? ==> r.learning)
    && (ev.OperationDone? ==> Owed(r, ev.op))
    && (ev.RemoveReady? ==> r.removing)
    && (ev.RemoveTimer? ==> if ev.forgotten then r.forgotten > 0 else r.timer)
    && !ev.SelfDestructRemoved? && !ev.SelfDestructNotRemoved?
  }

  predicate Owed(r: Radio, op: Operation) {
    if op.NodeRemoval? then r.removing
    else if op.FailNodeRemoval? then r.failed.open > 0
    else if op.ReturnRouteAssign? then r.assign.open > 0
    else Sole(op) ==> op in r.pending
  }

  /** An answer is owed to the command's own callback. */
  predicate OwedToUs(l: Line) {
    l.mine && l.open > 0
  }

  /** Something outside the state machine may still end whatever session it finds. */
  predicate Expecting(r: Radio) {
    r.pending != multiset{} || r.removing || r.timer || r.forgotten > 0 || OwedToUs(r.assign) || OwedToUs(r.failed)
  }

  /** A completion is still to come that will reset whatever session it finds. */
  predicate Unfinished(s: Nm) {
    s.replies > 0 || Expecting(s.radio)
  }

  /** A completion is still to come while the session can take the lock. */
  predicate Overlap(s: Nm) {
    Unfinished(s) && CanLock(s)
  }

  /** The latch is armed only where the reply it releases is waited for. */
  predicate LatchFits(s: Nm) {
    s.latch.disabled || s.state.WaitingForProbe? || s.state == Busy(RemovingAssociations)
  }

  /** The lock is held only by a session that will release it, with no completion to come that would end the
      session before. */
  predicate LockHeld(s: Nm) {
    LatchFits(s) && (s.locked ==> LockState(s.state) && !Unfinished(s))
  }

  predicate LockInv(s: Nm) {
    LockHeld(s) && !Overlap(s)
  }

  /** A reset forgets the session and not the lock. */
  lemma ResetKeeps(s: Nm, e: Env)
    ensures LockHeld(Reset(s, e)) <==> !s.locked
  {}

  /** The lock is held, if at all, by a session in a locking state that nothing outstanding can end; and when the
      machine speaks the lock is free. */
  predicate Sound(m: Move) {
    LockHeld(m.t) && (!m.say.Nothing? ==> !m.t.locked)
  }

  lemma SayKeeps(m: Move, e: Env)
    requires Sound(m)
    ensures LockHeld(Say(m, e))
  {}

  lemma UpdateKeeps(s: Nm, dhcp: bool, probe: bool, virtual: bool, e: Env)
    requires LockHeld(s)
    ensures Sound(Update(s, dhcp, probe, virtual, e))
  {}

  /** Whatever the machine was doing, waiting for the network update releases the lock. */
  lemma ReplyWhenUpdatedKeeps(s: Nm, e: Env)
    ensures Sound(ReplyWhenUpdated(s, e)) && !ReplyWhenUpdated(s, e).t.locked
  {}

  lemma SecureAddEndsKeeps(s: Nm, bad: bool, s2: bool)
    requires LockHeld(s) && s.latch.disabled
    ensures LockHeld(SecureAddEnds(s, bad, s2))
  {}

  lemma JoinedKeeps(s: Nm, e: Env)
    requires !Unfinished(s) && s.latch.disabled
    ensures LockHeld(Joined(s, e))
  {}

  lemma AddEndsKeeps(s: Nm, e: Env)
    requires LockHeld(s) && !Unfinished(s) && s.state.WaitForProtocol?
    ensures LockHeld(AddEnds(s, e))
  {
    JoinedKeeps(s.(radio := NoAdding(s)), e);
    SecureAddEndsKeeps(s.(radio := NoAdding(s)), e.knownBad, e.hasS2);
  }

  lemma ProxyKeeps(s: Nm, ev: Event, e: Env)
    requires LockInv(s) && s.state.ProxyInclusionWaitNif?
    ensures Sound(OnProxyWaitNif(s, ev, e))
  {
    if ev.NodeInfo? {
      var t := s.(flags := NO_FLAGS.(s2Add := true, proxy := true));
      if s.cmd != NodeAdd {
        JoinedKeeps(t.(state := ReplaceFailedReq), e);
      } else if ev.valid {
        AddEndsKeeps(t.(state := WaitForProtocol), e);
      }
    }
  }

  /** The events that take the lock come when nothing is outstanding. */
  predicate Undisturbed(s: Nm, ev: Event) {
    ((ev.AddStatusDone? && s.state.WaitForProtocol?) || (ev.ReplaceDone? && s.state.ReplaceFailedReq?) ||
     (ev.LearnStarted? && (s.state.LearnMode? || s.state.LearnModeStarted?)) || s.state.ProxyInclusionWaitNif?)
    ==> !Unfinished(s)
  }

  lemma AddBeginsKeeps(s: Nm, ev: Event)
    requires LockHeld(s)
    ensures s.state.WaitingForAdd? ==> Sound(OnWaitingForAdd(s, ev))
    ensures s.state.NodeFound? ==> Sound(OnNodeFound(s, ev))
  {}

  lemma ProtocolKeeps(s: Nm, ev: Event, e: Env)
    requires LockHeld(s) && Undisturbed(s, ev) && s.state.WaitForProtocol?
    ensures Sound(OnWaitForProtocol(s, ev, e))
  {
    if ev.AddStatusDone? {
      AddEndsKeeps(s, e);
    }
  }

  lemma ReplaceKeeps(s: Nm, ev: Event, e: Env)
    requires LockHeld(s) && Undisturbed(s, ev) && s.state.ReplaceFailedReq?
    ensures Sound(OnReplaceFailedReq(s, ev, e))
  {
    if ev.ReplaceDone? {
      JoinedKeeps(s, e);
    }
  }

  lemma SecureAddKeeps(s: Nm, ev: Event)
    requires LockHeld(s) && s.state.WaitForSecureAdd?
    ensures LockHeld(OnWaitForSecureAdd(s, ev))
  {}

  lemma HandoverKeeps(s: Nm, ev: Event, e: Env)
    requires LockHeld(s)
    ensures s.state.PrepareSucInclusion? ==> LockHeld(OnPrepareSucInclusion(s, ev, e))
    ensures s.state.WaitForSucInclusion? ==> LockHeld(OnWaitForSucInclusion(s, ev, e))
  {}

  lemma InterviewKeeps(s: Nm, ev: Event, e: Env)
    requires LockHeld(s)
    ensures s.state.WaitForProbeAfterAdd? ==> Sound(OnWaitForProbeAfterAdd(s, ev, e))
    ensures s.state.WaitDhcp? ==> Sound(OnWaitDhcp(s, ev))
  {}

  /** The add, replace and proxy states. */
  lemma AddKeeps(s: Nm, ev: Event, e: Env)
    requires LockHeld(s) && Undisturbed(s, ev)
    ensures Sound(OnAdd(s, ev, e))
  {
    var st := s.state;
    if st.WaitingForAdd? || st.NodeFound? {
      AddBeginsKeeps(s, ev);
    } else if st.WaitForProtocol? {
      ProtocolKeeps(s, ev, e);
    } else if st.ReplaceFailedReq? {
      ReplaceKeeps(s, ev, e);
    } else if st.ProxyInclusionWaitNif? {
      ProxyKeeps(s, ev, e);
    } else if st.PrepareSucInclusion? || st.WaitForSucInclusion? {
      HandoverKeeps(s, ev, e);
    } else if st.WaitForSecureAdd? {
      SecureAddKeeps(s, ev);
    } else {
      InterviewKeeps(s, ev, e);
    }
  }

  lemma RemovalFailedKeeps(s: Nm, retry: bool)
    requires LockHeld(s) && s.state.SelfDestruct?
    ensures Sound(RemovalFailed(s, retry))
  {}

  lemma RemovalStartsKeeps(s: Nm, retry: bool, e: Env)
    requires LockHeld(s) && s.state.SelfDestruct?
    ensures Sound(RemovalStarts(s, retry, e))
  {
    RemovalFailedKeeps(s.(state := SelfDestruct(Removing, retry), radio := Taken(s.radio, false, e.started)), retry);
  }

  lemma RemovingKeeps(s: Nm, retry: bool, ev: Event)
    requires LockHeld(s) && s.state.SelfDestruct?
    ensures Sound(OnRemoving(s, retry, ev))
  {
    RemovalFailedKeeps(s, retry);
  }

  lemma SelfDestructKeeps(s: Nm, ev: Event, e: Env)
    requires LockHeld(s) && s.state.SelfDestruct?
    ensures Sound(OnSelfDestruct(s, ev, e))
  {
    if s.state.stage.Removing? {
      RemovingKeeps(s, s.state.retry, ev);
    } else {
      RemovalStartsKeeps(s, s.state.retry, e);
    }
  }

  lemma LearnModeKeeps(s: Nm, ev: Event, e: Env)
    requires LockHeld(s) && Undisturbed(s, ev)
    ensures s.state.LearnMode? ==> Sound(OnLearnMode(s, ev, e))
    ensures s.state.LearnModeStarted? ==> Sound(OnLearnModeStarted(s, ev, e))
  {}

  lemma AfterLearnKeeps(s: Nm, ev: Event, e: Env)
    requires LockHeld(s) && Learnish(s.state) && !s.state.LearnMode? && !s.state.LearnModeStarted?
    ensures Sound(AfterLearn(s, ev, e))
  {
    ReplyWhenUpdatedKeeps(s, e);
  }

  lemma LearnKeeps(s: Nm, ev: Event, e: Env)
    requires LockHeld(s) && Learnish(s.state) && Undisturbed(s, ev)
    ensures Sound(OnLearn(s, ev, e))
  {
    if s.state.LearnMode? || s.state.LearnModeStarted? {
      LearnModeKeeps(s, ev, e);
    } else {
      AfterLearnKeeps(s, ev, e);
    }
  }

  lemma NetworkUpdateEndsKeeps(s: Nm, e: Env)
    requires !s.locked && LatchFits(s)
    ensures Sound(NetworkUpdateEnds(s, e))
  {
    ReplyWhenUpdatedKeeps(s, e);
  }

  lemma FailedAnswerKeeps(s: Nm, success: bool, e: Env)
    requires LockHeld(s) && s.radio.failed.open > 0
    ensures Sound(FailedAnswered(s, success, e))
  {
    var t := s.(radio := s.radio.(failed := Served(s.radio.failed)));
    if !s.radio.failed.mine && t.state.SelfDestruct? {
      SelfDestructKeeps(t, if success then SelfDestructRemoved else SelfDestructNotRemoved, e);
    }
  }

  /** Every answer, in whatever state it finds the machine: while one is to come the lock is free. */
  lemma AnswerKeeps(s: Nm, op: Operation, success: bool, e: Env)
    requires LockHeld(s) && Unguarded(op) && Owed(s.radio, op)
    ensures Sound(Answered(s, op, success, e))
  {
    if op.FailNodeRemoval? {
      FailedAnswerKeeps(s, success, e);
    } else if op.NetworkUpdate? {
      NetworkUpdateEndsKeeps(s.(radio := Less(s, op)), e);
    }
  }

  /** Going silent takes completions away and never adds one. */
  lemma SilenceKeeps(r: Radio, what: Silence)
    ensures Expecting(Silenced(r, what)) ==> Expecting(r)
  {}

  /** The callbacks and timers outside the event function, in whatever state they find the machine. */
  lemma DirectKeeps(s: Nm, ev: Event, e: Env)
    requires LockHeld(s) && Direct(ev) && RadioKeeps(s, Happens(ev))
    ensures Sound(OnDirect(s, ev, e))
  {
    if ev.OperationDone? {
      AnswerKeeps(s, ev.op, ev.success, e);
    } else if ev.Silent? {
      SilenceKeeps(s.radio, ev.what);
    }
  }

  lemma BeginKeeps(s: Nm, op: Operation, e: Env)
    requires !s.locked && s.latch.disabled
    ensures Sound(BeginOperation(s, op, e))
  {
    if op.NetworkUpdate? {
      NetworkUpdateEndsKeeps(s.(radio := Asked(s, op, e.accepted)), e);
    }
  }

  lemma StartKeeps(s: Nm, kind: LearnKind, wantInterview: bool, s2: bool, e: Env)
    requires LockHeld(s) && s.state.NmIdle?
    ensures Sound(LearnBegins(s, kind, wantInterview)) && Sound(ReplaceBegins(s, s2, e))
  {}

  /** What an idle machine starts or answers. */
  lemma IdleKeeps(s: Nm, ev: Event, e: Env)
    requires LockHeld(s) && s.state.NmIdle?
    ensures Sound(OnIdle(s, ev, e))
  {
    if ev.Begin? {
      BeginKeeps(s, ev.op, e);
    } else if ev.LearnSet? {
      StartKeeps(s, ev.kind, ev.wantInterview, false, e);
    } else if ev.ReplaceStart? {
      StartKeeps(s, Disable, false, ev.s2, e);
    }
  }

  lemma BusyKeeps(s: Nm, ev: Event, e: Env)
    requires LockHeld(s) && s.state.Busy?
    ensures Sound(OnBusy(s, ev, e))
  {
    if s.state.op.NodeRemoval? {
      BeginKeeps(s, NodeRemoval, e);
    }
  }

  lemma PostKeeps(s: Nm, ev: Event, e: Env)
    requires LockHeld(s) && Undisturbed(s, ev)
    ensures Sound(PostMove(s, ev, e))
  {
    if s.state.NmIdle? {
      IdleKeeps(s, ev, e);
    } else if s.state.Busy? {
      BusyKeeps(s, ev, e);
    } else if s.state.SelfDestruct? {
      SelfDestructKeeps(s, ev, e);
    } else if Learnish(s.state) {
      LearnKeeps(s, ev, e);
    } else {
      AddKeeps(s, ev, e);
    }
  }

  lemma DeliveredKeeps(s: Nm, ev: Event, e: Env)
    requires LockInv(s) && RadioKeeps(s, Happens(ev))
    ensures LockHeld(Delivered(s, ev, e)) && Undisturbed(Delivered(s, ev, e), ev)
  {}

  lemma CallbackKeeps(s: Nm, ev: Event, e: Env)
    requires LockInv(s) && RadioKeeps(s, Happens(ev))
    ensures Sound(MoveOf(s, ev, e))
  {
    if Direct(ev) {
      DirectKeeps(s, ev, e);
    } else {
      DeliveredKeeps(s, ev, e);
      PostKeeps(Delivered(s, ev, e), ev, e);
    }
  }

  lemma ReactionKeeps(s: Nm, inp: Input, e: Env)
    requires LockInv(s) && RadioKeeps(s, inp) && !(inp.ReplyDone? && s.replies > 0)
    ensures Sound(Reaction(s, inp, e))
  {
    match inp
    case UpdateStatus(dhcp, probe, virtual) => UpdateKeeps(s, dhcp, probe, virtual, e);
    case ReplyDone =>
    case FromPeer(p, ev) =>
      if FromClient(ev) && Admits(s, p) {
        PostKeeps(Engage(s, p), ev, e);
      }
    case Happens(ev) => CallbackKeeps(s, ev, e);
  }

  lemma StepKeepsLock(s: Nm, inp: Input, e: Env)
    requires LockInv(s) && RadioKeeps(s, inp)
    ensures LockHeld(Step(s, inp, e))
  {
    if inp.ReplyDone? && s.replies > 0 {
      ResetKeeps(s.(replies := s.replies - 1), e);
    } else {
      ReactionKeeps(s, inp, e);
      SayKeeps(Reaction(s, inp, e), e);
    }
  }

  // ---------------------------------------------------------------------- runs

  datatype Happening = Happening(inp: Input, e: Env)

  function Run(s: Nm, h: seq<Happening>): Nm
    decreases |h|
  {
    if |h| == 0 then s else Run(Step(s, h[0].inp, h[0].e), h[1..])
  }

  /** The radio keeps to what it was asked, all along the run. */
  predicate Fair(s: Nm, h: seq<Happening>)
    decreases |h|
  {
    |h| == 0 || (RadioKeeps(s, h[0].inp) && Fair(Step(s, h[0].inp, h[0].e), h[1..]))
  }

  /** No state of the run has a completion to come while it can still take the lock. */
  predicate Careful(s: Nm, h: seq<Happening>)
    decreases |h|
  {
    !Overlap(s) && (|h| == 0 || Careful(Step(s, h[0].inp, h[0].e), h[1..]))
  }

  /** After the boot reply. */
  predicate Booted(s: Nm) {
    s.state.NmIdle? && !s.locked && s.latch.disabled && !Unfinished(s)
  }

  lemma {:induction false} RunKeepsLock(s: Nm, h: seq<Happening>)
    requires LockHeld(s) && Fair(s, h) && Careful(s, h)
    ensures LockHeld(Run(s, h))
    decreases |h|
  {
    if |h| > 0 {
      StepKeepsLock(s, h[0].inp, h[0].e);
      RunKeepsLock(Step(s, h[0].inp, h[0].e), h[1..]);
    }
  }

  /** The lock law: at the end of every run in which no completion is outstanding while a session can take the
      lock, an idle machine has released the lock, and a lock that is held is held by a session that no
      outstanding completion can end. */
  lemma IdleMeansUnlocked(s: Nm, h: seq<Happening>)
    requires Booted(s) && Fair(s, h) && Careful(s, h)
    ensures Run(s, h).state.NmIdle? ==> !Run(s, h).locked
    ensures Run(s, h).locked ==> LockState(Run(s, h).state) && !Unfinished(Run(s, h))
  {
    RunKeepsLock(s, h);
  }

  /** A cancelled learn mode has deregistered its callback: a report the radio had queued by then is dropped,
      so that it cannot take the lock after the cancellation's reply went out. */
  lemma CancelledLearnIsOver(s: Nm, e: Env)
    requires s.state.LearnMode?
    ensures var t := Post(s, LearnSet(Disable, false), e);
            !CanLock(t) && !RadioKeeps(t, Happens(LearnStarted))
  {}

  // -------------------------------------------------------- why overlap must be excluded

  /** Every reply completes inside its send. */
  predicate Prompt(h: seq<Happening>) {
    forall i :: 0 <= i < |h| ==> h[i].e.reply.Now?
  }

  /** Some behaviour of the surroundings, with prompt replies if so asked, leaves the machine idle with the
      lock held. */
  ghost predicate Leaks(s: Nm, prompt: bool) {
    exists h :: Fair(s, h) && (prompt ==> Prompt(h)) && Run(s, h).state.NmIdle? && Run(s, h).locked
  }

  lemma LeaksBefore(s: Nm, inp: Input, e: Env, prompt: bool)
    requires RadioKeeps(s, inp) && Leaks(Step(s, inp, e), prompt) && (prompt ==> e.reply.Now?)
    ensures Leaks(s, prompt)
  {
    var t := Step(s, inp, e);
    var h :| Fair(t, h) && (prompt ==> Prompt(h)) && Run(t, h).state.NmIdle? && Run(t, h).locked;
    var g := [Happening(inp, e)] + h;
    assert g[1..] == h;
    assert Fair(s, g) && Run(s, g) == Run(t, h);
  }

  /** Replies complete at once and a node wants S0 bootstrapping. */
  const JOINING := Env(
    reply := Now, restart := Untouched, started := true, accepted := false, nodeKnown := false,
    sucIncludes := false, wantsS2 := false, wantsS0 := true, knownBad := false, hasS2 := false,
    handoverRefused := false, hasUnsolicited := false, hasIp := false, excluded := false, newNetwork := false,
    bridgeReady := false, allHaveIp := false, bridgeBooted := false, timerFree := true, newNodes := false,
    quiet := false)

  /** One of the completions to come. */
  ghost function Completion(s: Nm): (inp: Input)
    requires Unfinished(s)
    ensures RadioKeeps(s, inp)
  {
    var r := s.radio;
    if s.replies > 0 then ReplyDone
    else if r.removing then Happens(OperationDone(NodeRemoval, false))
    else if r.timer then Happens(RemoveTimer(false))
    else if r.forgotten > 0 then Happens(RemoveTimer(true))
    else if OwedToUs(r.assign) then Happens(OperationDone(ReturnRouteAssign, false))
    else if OwedToUs(r.failed) then Happens(OperationDone(FailNodeRemoval, false))
    else
      var op :| op in r.pending;
      Happens(OperationDone(op, false))
  }

  /** The completion that is to come ends the session, and the lock stays. */
  lemma LockedLeaks(s: Nm)
    requires s.locked && Unfinished(s)
    ensures Leaks(s, true)
  {
    var inp := Completion(s);
    var t := Step(s, inp, JOINING);
    assert t.state.NmIdle? && t.locked;
    assert Fair(t, []) && Prompt([]) && Run(t, []) == t;
    LeaksBefore(s, inp, JOINING, true);
  }

  lemma ProtocolLeaks(s: Nm)
    requires s.state.WaitForProtocol? && Overlap(s)
    ensures Leaks(s, true)
  {
    LockedLeaks(Step(s, Happens(AddStatusDone), JOINING));
    LeaksBefore(s, Happens(AddStatusDone), JOINING, true);
  }

  lemma NodeFoundLeaks(s: Nm)
    requires s.state.NodeFound? && Overlap(s)
    ensures Leaks(s, true)
  {
    ProtocolLeaks(Step(s, Happens(NodeAdded(true)), JOINING));
    LeaksBefore(s, Happens(NodeAdded(true)), JOINING, true);
  }

  lemma WaitingForAddLeaks(s: Nm)
    requires s.state.WaitingForAdd? && Overlap(s)
    ensures Leaks(s, true)
  {
    NodeFoundLeaks(Step(s, Happens(AddNodeFound), JOINING));
    LeaksBefore(s, Happens(AddNodeFound), JOINING, true);
  }

  lemma ReplaceLeaks(s: Nm)
    requires s.state.ReplaceFailedReq? && Overlap(s)
    ensures Leaks(s, true)
  {
    LockedLeaks(Step(s, Happens(ReplaceDone), JOINING));
    LeaksBefore(s, Happens(ReplaceDone), JOINING, true);
  }

  lemma LearnLeaks(s: Nm)
    requires (s.state.LearnMode? || s.state.LearnModeStarted?) && Overlap(s)
    ensures Leaks(s, true)
  {
    LockedLeaks(Step(s, Happens(LearnStarted), JOINING));
    LeaksBefore(s, Happens(LearnStarted), JOINING, true);
  }

  lemma JoinLocks(s: Nm)
    ensures Joined(s, JOINING) == s.(state := WaitForSecureAdd, locked := true)
  {}

  lemma ProxyAddLocks(s: Nm)
    requires s.state.NodeFound? && s.flags.proxy
    ensures ProxyAdds(s, true, JOINING) ==
            Just(s.(state := WaitForSecureAdd, locked := true, radio := NoAdding(s)))
  {
    var t := s.(state := WaitForProtocol);
    JoinLocks(t.(radio := NoAdding(t)));
  }

  lemma ProxyLocks(s: Nm)
    requires s.state.ProxyInclusionWaitNif?
    ensures var m := OnProxyWaitNif(s, NodeInfo(true), JOINING);
            m.say.Nothing? && m.t.locked && m.t.replies == s.replies &&
            m.t.radio == s.radio.(adding := m.t.radio.adding)
  {
    var t := s.(flags := NO_FLAGS.(s2Add := true, proxy := true));
    if s.cmd == NodeAdd {
      ProxyAddLocks(t.(state := NodeFound));
    } else {
      JoinLocks(t.(state := ReplaceFailedReq));
    }
  }

  lemma ProxyLeaks(s: Nm)
    requires s.state.ProxyInclusionWaitNif? && Overlap(s)
    ensures Leaks(s, true)
  {
    var t := Step(s, Happens(NodeInfo(true)), JOINING);
    ProxyLocks(s);
    assert t == OnProxyWaitNif(s, NodeInfo(true), JOINING).t;
    LockedLeaks(t);
    LeaksBefore(s, Happens(NodeInfo(true)), JOINING, true);
  }

  /** Whenever a completion is to come while the session can still take the lock, it can come after the lock
      was taken: it ends the session and leaves the lock. */
  lemma OverlapLeaks(s: Nm)
    requires Overlap(s)
    ensures Leaks(s, true)
  {
    var st := s.state;
    if st.WaitForProtocol? {
      ProtocolLeaks(s);
    } else if st.NodeFound? {
      NodeFoundLeaks(s);
    } else if st.WaitingForAdd? {
      WaitingForAddLeaks(s);
    } else if st.ReplaceFailedReq? {
      ReplaceLeaks(s);
    } else if st.ProxyInclusionWaitNif? {
      ProxyLeaks(s);
    } else {
      LearnLeaks(s);
    }
  }

  /** So the condition of the lock law is exact, run by run: a fair run that is not careful passes a state from
      which the lock can be left taken, by prompt replies alone. */
  lemma {:induction false} CarelessLeaks(s: Nm, h: seq<Happening>) returns (k: nat)
    requires Fair(s, h) && !Careful(s, h)
    ensures k <= |h| && Overlap(Run(s, h[..k])) && Leaks(Run(s, h[..k]), true)
    decreases |h|
  {
    if Overlap(s) {
      OverlapLeaks(s);
      k := 0;
    } else {
      var rest := CarelessLeaks(Step(s, h[0].inp, h[0].e), h[1..]);
      k := rest + 1;
      assert h[..k][1..] == h[1..][..rest];
    }
  }

  /** Two commands are enough: a node list acknowledged late, and an inclusion. */
  lemma LateReplyLeaks(s: Nm, client: nat)
    requires Booted(s)
    ensures Leaks(s, false)
  {
    var late := JOINING.(reply := Later);
    var t := Step(s, FromPeer(client, RequestList), late);
    OverlapLeaks(Step(t, FromPeer(client, AddNode(false)), JOINING));
    LeaksBefore(t, FromPeer(client, AddNode(false)), JOINING, false);
    LeaksBefore(s, FromPeer(client, RequestList), late, false);
  }

  /** Even if every reply completes at once: node information sent, and an inclusion that takes the lock before
      the transmission is reported. */
  lemma NodeInformationLeaks(s: Nm, client: nat)
    requires Booted(s)
    ensures Leaks(s, true)
  {
    var t := Step(s, FromPeer(client, Begin(SendingNodeInfo)), JOINING);
    OverlapLeaks(Step(t, FromPeer(client, AddNode(false)), JOINING));
    LeaksBefore(t, FromPeer(client, AddNode(false)), JOINING, true);
    LeaksBefore(s, FromPeer(client, Begin(SendingNodeInfo)), JOINING, true);
  }

  /** A refused command is enough when another party's answer is owed: it puts its own callback in the slot, and
      the answer then ends whatever session it finds. The answer may be to a self-destruct removal that timed
      out, or to a route assignment of the resource directory or of an association. */
  lemma TakenSlotLeaks(s: Nm, client: nat, op: Operation)
    requires s.state.NmIdle?
    requires (op.FailNodeRemoval? && s.radio.failed.open > 0) || (op.ReturnRouteAssign? && s.radio.assign.open > 0)
    ensures Leaks(s, true)
  {
    var t := Step(s, FromPeer(client, Begin(op)), JOINING);
    OverlapLeaks(Step(t, FromPeer(client, AddNode(false)), JOINING));
    LeaksBefore(t, FromPeer(client, AddNode(false)), JOINING, true);
    LeaksBefore(s, FromPeer(client, Begin(op)), JOINING, true);
  }

  /** A forgotten timer alone. */
  lemma ForgottenTimerLeaks(s: Nm, client: nat)
    requires s.state.NmIdle? && s.radio.forgotten > 0
    ensures Leaks(s, true)
  {
    OverlapLeaks(Step(s, FromPeer(client, AddNode(false)), JOINING));
    LeaksBefore(s, FromPeer(client, AddNode(false)), JOINING, true);
  }

  lemma StoppedRemovalLeaks(s: Nm, client: nat)
    requires s.state == Busy(NodeRemoval) && s.peer == client && s.radio.forgotten > 0
    ensures Leaks(s, true)
  {
    ForgottenTimerLeaks(Step(s, FromPeer(client, RemoveStop), JOINING), client);
    LeaksBefore(s, FromPeer(client, RemoveStop), JOINING, true);
  }

  lemma RestartedRemovalLeaks(s: Nm, client: nat)
    requires s.state == Busy(NodeRemoval) && s.peer == client && s.radio.removing && s.radio.timer
    ensures Leaks(s, true)
  {
    var t := Step(s, FromPeer(client, Begin(NodeRemoval)), JOINING);
    StoppedRemovalLeaks(Step(t, Happens(RemoveReady), JOINING), client);
    LeaksBefore(t, Happens(RemoveReady), JOINING, true);
    LeaksBefore(s, FromPeer(client, Begin(NodeRemoval)), JOINING, true);
  }

  /** Ordinary commands and prompt replies are enough: a removal started twice and stopped leaves the first
      timer armed, which ends an inclusion that has taken the lock. */
  lemma StrayTimerLeaks(s: Nm, client: nat)
    requires Booted(s)
    ensures Leaks(s, true)
  {
    var t := Step(s, FromPeer(client, Begin(NodeRemoval)), JOINING);
    RestartedRemovalLeaks(Step(t, Happens(RemoveReady), JOINING), client);
    LeaksBefore(t, Happens(RemoveReady), JOINING, true);
    LeaksBefore(s, FromPeer(client, Begin(NodeRemoval)), JOINING, true);
  }

  /** Ending a removal leaves the forgotten timers armed. */
  lemma RemovalForgets(s: Nm, removed: bool, e: Env)
    ensures var r := Say(RemovalEnds(s, removed), e).radio;
            r.forgotten == s.radio.forgotten && !r.removing && !r.timer
  {}

  /** A forgotten timer that fires ends the removal under way with it. */
  lemma ForgottenTimerEndsBoth(s: Nm, e: Env)
    requires s.radio.forgotten > 0
    ensures var r := Say(TimerFires(s, true), e).radio;
            r.forgotten == s.radio.forgotten - 1 && !r.removing && !r.timer
  {
    RemovalForgets(s.(radio := s.radio.(forgotten := s.radio.forgotten - 1)), false, e);
  }
}
