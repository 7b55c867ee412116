/** The S0 secure-inclusion statechart (src-gen/Secure_learn.c) and the poll loop
    that drives it (src/transport/security_layer.c).

    `Chart` is the value of the handle plus what the chart has asked of its
    environment: the running timer and one channel per kind of "Required" call.
    `Cycle` is the specification of one run-to-completion step; class `Handle`
    is the code, loop over `position` included, and refines it. */
module SecureLearn {

  datatype State =
    | LStart | LSchemeReport | LFail | LNewKey | LInherited | LInsecureNet | LEnd
    | Idle
    | ISchemeRequest | ISendKey | ISendInherit | IFail | IEnd | IWaitVerify
    | Complete | SendReport | Final | LastState

  datatype Timer = TStart | TSchemeReport | TNewKey | TSchemeRequest | TSendKey | TSendInherit | TWaitVerify

  /** The glue keeps one timer and restarts it for whichever state arms it. */
  datatype Clock = Stopped | Running(timer: Timer)

  datatype Send =
    | SchemeReport(node: int, tx: int) | KeyVerify(node: int, tx: int)
    | SchemeGet(node: int, tx: int) | Key(node: int, tx: int) | SchemeInherit(node: int, tx: int)
    | CommandsSupported

  datatype KeyOp = SetInclusionKey | RestoreKey | SaveState

  datatype Registration = Registration(node: int, scheme: int)

  /** The value a raised event carries; its address, in practice always a node id. */
  datatype Signal = Off | On(value: int)

  /** The raised flags of the interface. */
  datatype Events = Events(
    learnRequest: bool, inclusionRequest: Signal, commandsSupported: bool, txDone: bool, txFail: bool,
    schemeGet: Signal, schemeInherit: Signal, keySet: Signal, schemeReport: Signal, keyVerify: Signal)

  /** The variables of the interface. */
  datatype Vars = Vars(tx: int, isController: bool, node: int, scheme: int, netScheme: int)

  /** What the chart has asked of its environment, one channel per kind of call. */
  datatype Output = Output(
    clock: Clock, sessions: nat, completions: seq<int>,
    registrations: seq<Registration>, sends: seq<Send>, keyOps: seq<KeyOp>)
  {
    function Register(node: int, scheme: int): Output {
      this.(registrations := registrations + [Registration(node, scheme)])
    }
    function Sent(s: Send): Output { this.(sends := sends + [s]) }
    function KeyDone(k: KeyOp): Output { this.(keyOps := keyOps + [k]) }
    function Completed(status: int): Output { this.(completions := completions + [status]) }
    function Started(): Output { this.(sessions := sessions + 1) }
  }

  datatype Chart = Chart(state: State, vars: Vars, events: Events, timeEvents: set<Timer>, out: Output)

  // ---------------------------------------------------------------- vocabulary

  predicate InLearn(s: State) {
    s in {LStart, LSchemeReport, LFail, LNewKey, LInherited, LInsecureNet, LEnd}
  }

  predicate InInclusion(s: State) {
    s in {ISchemeRequest, ISendKey, ISendInherit, IFail, IEnd, IWaitVerify}
  }

  predicate InSession(s: State) {
    InLearn(s) || InInclusion(s)
  }

  /** The timer a state arms on entry. */
  function OwnTimer(s: State): Clock {
    match s
    case LStart => Running(TStart)
    case LSchemeReport => Running(TSchemeReport)
    case LNewKey => Running(TNewKey)
    case ISchemeRequest => Running(TSchemeRequest)
    case ISendKey => Running(TSendKey)
    case ISendInherit => Running(TSendInherit)
    case IWaitVerify => Running(TWaitVerify)
    case _ => Stopped
  }

  /** `scheme & 1`, and `scheme & supported_schemes`: supported_schemes is 1 and has no setter. */
  predicate HasS0(scheme: int) {
    scheme % 2 == 1
  }

  const NO_EVENTS := Events(false, Off, false, false, false, Off, Off, Off, Off, Off)
  const NOTHING := Output(Stopped, 0, [], [], [], [])
  const INITIAL := Vars(0, false, 0, 0, 0)

  /** The active state's own time event is pending. */
  predicate TimedOut(c: Chart) {
    OwnTimer(c.state).Running? && OwnTimer(c.state).timer in c.timeEvents
  }

  // ------------------------------------------------------- specification of a cycle

  function Goto(c: Chart, s: State): Chart {
    var left := if OwnTimer(c.state) == Stopped then c.out.clock else Stopped;
    c.(state := s, out := c.out.(clock := if OwnTimer(s) == Stopped then left else OwnTimer(s)))
  }

  function LearnFailed(c: Chart): Chart { Goto(c, LFail).(vars := c.vars.(scheme := -1)) }

  function InclusionFailed(c: Chart): Chart {
    var d := Goto(c, IFail);
    d.(vars := c.vars.(scheme := -1), out := d.out.Register(c.vars.node, 0))
  }

  function LStartReaction(c: Chart): Chart {
    var e, v := c.events, c.vars;
    if e.schemeGet.On? then
      var d, node := Goto(c, LSchemeReport), e.schemeGet.value;
      d.(vars := v.(node := node),
         out := d.out.Sent(SchemeReport(node, v.tx)).KeyDone(SetInclusionKey).Register(node, v.scheme))
    else if TimedOut(c) then
      if v.isController then Goto(c, LInsecureNet).(vars := v.(scheme := 0)) else Goto(c, LEnd)
    else c
  }

  function LSchemeReportReaction(c: Chart): Chart {
    var e, v := c.events, c.vars;
    if e.keySet == On(v.node) then
      var d := Goto(c, LNewKey);
      d.(vars := v.(netScheme := v.scheme % 2), out := d.out.Sent(KeyVerify(v.node, v.tx)))
    else if TimedOut(c) || e.txFail || (e.txDone && !HasS0(v.scheme)) then LearnFailed(c)
    else c
  }

  function LNewKeyReaction(c: Chart): Chart {
    var e, v := c.events, c.vars;
    if e.txDone && !v.isController then Goto(c, LEnd)
    else if TimedOut(c) || e.txFail then LearnFailed(c)
    else if e.schemeInherit == On(v.node) && v.isController then
      var d := Goto(c, LInherited);
      d.(out := d.out.Sent(SchemeReport(v.node, v.tx)))
    else c
  }

  function LInheritedReaction(c: Chart): Chart {
    if c.events.txDone then Goto(c, LEnd) else if c.events.txFail then LearnFailed(c) else c
  }

  function LEndReaction(c: Chart): Chart {
    var d := Goto(c, Complete);
    d.(vars := c.vars.(netScheme := c.vars.scheme), out := d.out.KeyDone(SaveState).Completed(c.vars.scheme))
  }

  function ReactLearn(c: Chart): Chart
    requires InLearn(c.state)
  {
    match c.state
    case LStart => LStartReaction(c)
    case LSchemeReport => LSchemeReportReaction(c)
    case LNewKey => LNewKeyReaction(c)
    case LInherited => LInheritedReaction(c)
    case LFail => Goto(c, LEnd)
    case LInsecureNet => Goto(c, LEnd)
    case LEnd => LEndReaction(c)
  }

  function ISchemeRequestReaction(c: Chart): Chart {
    var e, v := c.events, c.vars;
    if e.schemeReport == On(v.node) then
      if HasS0(v.scheme) then
        var d := Goto(c, ISendKey);
        d.(out := d.out.Register(v.node, v.scheme).Sent(Key(v.node, v.tx)))
      else InclusionFailed(c)
    else if TimedOut(c) || e.txFail then InclusionFailed(c)
    else c
  }

  function ISendKeyReaction(c: Chart): Chart {
    if c.events.txFail || TimedOut(c) then InclusionFailed(c)
    else if c.events.txDone then
      var d := Goto(c, IWaitVerify);
      d.(out := d.out.KeyDone(RestoreKey))
    else c
  }

  function IWaitVerifyReaction(c: Chart): Chart {
    var v := c.vars;
    if c.events.keyVerify == On(v.node) then
      var d := Goto(c, if v.isController then ISendInherit else IEnd);
      if v.isController then d.(out := d.out.Sent(SchemeInherit(v.node, v.tx)))
      else d.(out := d.out.Register(v.node, v.scheme))
    else if TimedOut(c) then InclusionFailed(c)
    else c
  }

  function ISendInheritReaction(c: Chart): Chart {
    var e, v := c.events, c.vars;
    if TimedOut(c) || e.txFail then InclusionFailed(c)
    else if e.schemeReport == On(v.node) then
      var r := c.(out := c.out.Register(v.node, v.scheme));
      if HasS0(v.scheme) then Goto(r, IEnd) else InclusionFailed(r)
    else c
  }

  function IEndReaction(c: Chart): Chart {
    var d := Goto(c, Complete);
    d.(out := d.out.Completed(c.vars.scheme))
  }

  function ReactInclusion(c: Chart): Chart
    requires InInclusion(c.state)
  {
    match c.state
    case ISchemeRequest => ISchemeRequestReaction(c)
    case ISendKey => ISendKeyReaction(c)
    case IWaitVerify => IWaitVerifyReaction(c)
    case ISendInherit => ISendInheritReaction(c)
    case IFail => Goto(c, IEnd)
    case IEnd => IEndReaction(c)
  }

  function IdleReaction(c: Chart): Chart {
    var e, v := c.events, c.vars;
    if e.learnRequest then
      var d := Goto(c, LStart);
      d.(vars := v.(netScheme := 0), out := d.out.Started())
    else if e.inclusionRequest.On? then
      var d, node := Goto(c, ISchemeRequest), e.inclusionRequest.value;
      d.(vars := v.(node := node), out := d.out.Started().Sent(SchemeGet(node, v.tx)))
    else if e.commandsSupported then
      var d := Goto(c, SendReport);
      d.(out := d.out.Sent(CommandsSupported))
    else c
  }

  function ReactOutside(c: Chart): Chart
    requires !InSession(c.state)
  {
    match c.state
    case Idle => IdleReaction(c)
    case Complete => Goto(c, Idle)
    case SendReport => if c.events.txDone || c.events.txFail then Goto(c, Idle) else c
    case _ => c
  }

  /** The reaction of the active state: at most one transition. */
  function React(c: Chart): Chart {
    if InLearn(c.state) then ReactLearn(c)
    else if InInclusion(c.state) then ReactInclusion(c)
    else ReactOutside(c)
  }

  function ClearIn(c: Chart): Chart { c.(events := NO_EVENTS, timeEvents := {}) }

  function Cycle(c: Chart): Chart { ClearIn(React(c)) }

  // ------------------------------------------------------------------------- runs

  /** Everything that can happen to an entered chart: the setters and raise functions its glue
      calls, an armed timer expiring, and a cycle. */
  datatype Input =
    | RaiseLearn | RaiseInclusion(v: int) | RaiseCommandsSupported | RaiseTxDone | RaiseTxFail
    | RaiseSchemeGet(v: int) | RaiseSchemeInherit(v: int) | RaiseKeySet(v: int)
    | RaiseSchemeReport(v: int) | RaiseKeyVerify(v: int)
    | SetTx(v: int) | SetController(b: bool) | SetScheme(v: int) | SetNetScheme(v: int)
    | Expire(t: Timer) | DoCycle

  function ApplyRaise(e: Events, inp: Input): Events {
    match inp
    case RaiseLearn => e.(learnRequest := true)
    case RaiseInclusion(v) => e.(inclusionRequest := On(v))
    case RaiseCommandsSupported => e.(commandsSupported := true)
    case RaiseTxDone => e.(txDone := true)
    case RaiseTxFail => e.(txFail := true)
    case RaiseSchemeGet(v) => e.(schemeGet := On(v))
    case RaiseSchemeInherit(v) => e.(schemeInherit := On(v))
    case RaiseKeySet(v) => e.(keySet := On(v))
    case RaiseSchemeReport(v) => e.(schemeReport := On(v))
    case RaiseKeyVerify(v) => e.(keyVerify := On(v))
    case _ => e
  }

  function ApplySet(v: Vars, inp: Input): Vars {
    match inp
    case SetTx(x) => v.(tx := x)
    case SetController(b) => v.(isController := b)
    case SetScheme(x) => v.(scheme := x)
    case SetNetScheme(x) => v.(netScheme := x)
    case _ => v
  }

  function Apply(c: Chart, inp: Input): Chart {
    match inp
    case Expire(t) =>
      if c.out.clock == Running(t) then c.(out := c.out.(clock := Stopped), timeEvents := c.timeEvents + {t}) else c
    case DoCycle => Cycle(c)
    case _ => c.(events := ApplyRaise(c.events, inp), vars := ApplySet(c.vars, inp))
  }

  function Entered(v: Vars): Chart {
    Chart(Idle, v, NO_EVENTS, {}, NOTHING)
  }

  function Run(c: Chart, inputs: seq<Input>): Chart {
    if inputs == [] then c else Apply(Run(c, inputs[..|inputs| - 1]), inputs[|inputs| - 1])
  }

  // ---------------------------------------------------- conservation and timers

  ghost predicate Inv(c: Chart) {
    && c.state !in {Final, LastState}
    && c.out.sessions == |c.out.completions| + (if InSession(c.state) then 1 else 0)
    && (c.out.clock == Stopped || c.out.clock == OwnTimer(c.state))
    && (OwnTimer(c.state) != Stopped ==> c.out.clock == OwnTimer(c.state) || TimedOut(c))
  }

  lemma CycleKeepsInv(c: Chart)
    requires Inv(c)
    ensures Inv(Cycle(c))
  {
    if InLearn(c.state) {
      LearnKeepsInv(c);
    } else if InInclusion(c.state) {
      InclusionKeepsInv(c);
    }
  }

  lemma LearnKeepsInv(c: Chart)
    requires Inv(c) && InLearn(c.state)
    ensures Inv(ClearIn(ReactLearn(c)))
  {}

  lemma InclusionKeepsInv(c: Chart)
    requires Inv(c) && InInclusion(c.state)
    ensures Inv(ClearIn(ReactInclusion(c)))
  {}

  /** Over every run: each session completes at most once and each completion belongs to a session,
      so the two counts differ by exactly the session in progress; and at every boundary only the
      active state's own timer can be armed, a timed state having it armed or already expired. */
  lemma {:induction false} RunInvariant(v: Vars, inputs: seq<Input>)
    ensures Inv(Run(Entered(v), inputs))
  {
    if inputs != [] {
      var c := Run(Entered(v), inputs[..|inputs| - 1]);
      RunInvariant(v, inputs[..|inputs| - 1]);
      if inputs[|inputs| - 1] == DoCycle {
        CycleKeepsInv(c);
      }
    }
  }

  /** A pending time event of the active state forces the next cycle out of that state, and a cycle
      always ends with no event pending. */
  lemma ExpiryLeaves(c: Chart)
    requires Inv(c) && TimedOut(c)
    ensures Cycle(c).state != c.state
    ensures Cycle(c).timeEvents == {} && Cycle(c).events == NO_EVENTS
    ensures Cycle(c).out.clock == OwnTimer(Cycle(c).state)
  {}

  // ------------------------------------------------------------------- progress

  /** Strictly decreasing along a session. */
  function Rank(s: State): nat {
    match s
    case LStart => 6 case LSchemeReport => 5 case LNewKey => 4 case LInherited => 3
    case LFail => 2 case LInsecureNet => 2 case LEnd => 1
    case ISchemeRequest => 6 case ISendKey => 5 case IWaitVerify => 4 case ISendInherit => 3
    case IFail => 2 case IEnd => 1
    case _ => 0
  }

  /** The number of state changes the run makes before the session `c` is in ends. */
  function Changes(c: Chart, inputs: seq<Input>): nat
    decreases |inputs|
  {
    if inputs == [] || !InSession(c.state) then 0 else
    var d := Apply(c, inputs[0]);
    (if d.state != c.state then 1 else 0) + Changes(d, inputs[1..])
  }

  /** A session never takes more than six state changes, whatever the environment does. */
  lemma {:induction false} SessionIsShort(c: Chart, inputs: seq<Input>)
    ensures Changes(c, inputs) <= Rank(c.state) <= 6
    decreases |inputs|
  {
    if inputs != [] && InSession(c.state) {
      var d := Apply(c, inputs[0]);
      assert d.state == c.state || Rank(d.state) < Rank(c.state);
      SessionIsShort(d, inputs[1..]);
    }
  }

  // ------------------------------------------------- outcome of an inclusion session

  /** What the glue promises when it touches the chart. It writes the scheme only with non-negative
      masks, with the S0 bit set while it sends a key and waits for its verification, before it passes a scheme
      get or report on, and never once a session's outcome is decided, which it then runs to the end of; it
      changes isController only while the chart is idle. */
  predicate GlueKeeps(c: Chart, inp: Input) {
    match inp
    case SetScheme(v) =>
      && v >= 0
      && c.state !in {IFail, IEnd, LFail, LInsecureNet, LEnd}
      && (c.state in {ISendKey, IWaitVerify} ==> HasS0(v))
    case RaiseSchemeReport(v) => c.state == ISchemeRequest ==> c.vars.scheme >= 0
    case RaiseSchemeGet(v) => c.state == LStart ==> c.vars.scheme >= 0
    case SetController(_) => c.state == Idle
    case _ => true
  }

  predicate GlueKeepsRun(c: Chart, inputs: seq<Input>) {
    inputs == [] ||
    (var front := inputs[..|inputs| - 1];
     GlueKeepsRun(c, front) && GlueKeeps(Run(c, front), inputs[|inputs| - 1]))
  }

  /** The last n frames sent are the session's: scheme get, key and scheme inherit in that order, all
      to the session's node, the third only towards a controller. */
  predicate SentExactly(c: Chart, n: nat) {
    var s, node := c.out.sends, c.vars.node;
    && 1 <= n <= 3 && |s| >= n
    && s[|s| - n].SchemeGet? && s[|s| - n].node == node
    && (n >= 2 ==> s[|s| - n + 1].Key? && s[|s| - n + 1].node == node)
    && (n >= 3 ==> s[|s| - n + 2].SchemeInherit? && s[|s| - n + 2].node == node && c.vars.isController)
  }

  predicate SentSome(c: Chart) {
    SentExactly(c, 1) || SentExactly(c, 2) || SentExactly(c, 3)
  }

  /** The network key is back in place. */
  predicate Restored(c: Chart) {
    var k := c.out.keyOps;
    |k| > 0 && k[|k| - 1] == RestoreKey
  }

  ghost predicate Settled(c: Chart) {
    && (c.vars.scheme != -1 ==> Restored(c))
    && |c.out.registrations| > 0
    && var r := c.out.registrations[|c.out.registrations| - 1];
       && r.node == c.vars.node
       && (c.vars.scheme == -1 <==> r.scheme == 0)
       && (r.scheme != 0 ==> r.scheme == c.vars.scheme && HasS0(r.scheme))
  }

  ghost predicate InclusionInv(c: Chart) {
    match c.state
    case ISchemeRequest => SentExactly(c, 1) && (c.events.schemeReport.On? ==> c.vars.scheme >= 0)
    case ISendKey => SentExactly(c, 2) && HasS0(c.vars.scheme) && c.vars.scheme >= 0
    case IWaitVerify => SentExactly(c, 2) && HasS0(c.vars.scheme) && c.vars.scheme >= 0 && Restored(c)
    case ISendInherit => SentExactly(c, 3) && c.vars.scheme >= 0 && Restored(c)
    case IFail => SentSome(c) && Settled(c) && c.vars.scheme == -1
    case IEnd => SentSome(c) && Settled(c)
    case _ => true
  }

  lemma CycleKeepsInclusionInv(c: Chart)
    requires InclusionInv(c)
    ensures InclusionInv(Cycle(c))
  {
    match c.state {
      case ISchemeRequest => SchemeRequestKeeps(c);
      case ISendKey => SendKeyKeeps(c);
      case IWaitVerify => WaitVerifyKeeps(c);
      case ISendInherit => SendInheritKeeps(c);
      case IFail =>
      case IEnd =>
      case Idle =>
      case _ => assert !InInclusion(Cycle(c).state);
    }
  }

  lemma SchemeRequestKeeps(c: Chart)
    requires c.state == ISchemeRequest && InclusionInv(c)
    ensures InclusionInv(ClearIn(ISchemeRequestReaction(c)))
  {}

  lemma SendKeyKeeps(c: Chart)
    requires c.state == ISendKey && InclusionInv(c)
    ensures InclusionInv(ClearIn(ISendKeyReaction(c)))
  {}

  lemma WaitVerifyKeeps(c: Chart)
    requires c.state == IWaitVerify && InclusionInv(c)
    ensures InclusionInv(ClearIn(IWaitVerifyReaction(c)))
  {}

  lemma SendInheritKeeps(c: Chart)
    requires c.state == ISendInherit && InclusionInv(c)
    ensures InclusionInv(ClearIn(ISendInheritReaction(c)))
  {}

  lemma ApplyKeepsInclusionInv(c: Chart, inp: Input)
    requires InclusionInv(c) && GlueKeeps(c, inp)
    ensures InclusionInv(Apply(c, inp))
  {
    if inp == DoCycle {
      CycleKeepsInclusionInv(c);
    }
  }

  lemma {:induction false} RunKeepsInclusionInv(i: Vars, inputs: seq<Input>)
    requires GlueKeepsRun(Entered(i), inputs)
    ensures InclusionInv(Run(Entered(i), inputs))
  {
    if inputs != [] {
      var front := inputs[..|inputs| - 1];
      RunKeepsInclusionInv(i, front);
      ApplyKeepsInclusionInv(Run(Entered(i), front), inputs[|inputs| - 1]);
    }
  }

  /** How an inclusion session ends: the status is -1 exactly when the node's last registration was 0, otherwise
      it is the value last registered and carries the S0 bit; and the frames of the session all went to that
      node, as a prefix of scheme get, key, scheme inherit, the last one only towards a controller. Unless it
      failed, the network key was put back in place last. */
  ghost predicate EndsWell(c: Chart, d: Chart) {
    && (c.vars.scheme != -1 ==> Restored(d))
    && |c.out.registrations| > 0
    && var r := c.out.registrations[|c.out.registrations| - 1];
    && d.out.completions == c.out.completions + [c.vars.scheme]
    && r.node == c.vars.node
    && (c.vars.scheme == -1 <==> r.scheme == 0)
    && (r.scheme != 0 ==> r.scheme == c.vars.scheme && HasS0(c.vars.scheme))
    && SentSome(c)
  }

  lemma EndCompletes(c: Chart)
    requires c.state == IEnd && InclusionInv(c)
    ensures EndsWell(c, Cycle(c))
  {}

  /** Where the glue's promise matters: the scheme taken over from an awaited report is negative after
      the cycle exactly when it was negative and odd before, so that -1 would be registered as a success. */
  lemma NegativeSchemeRegisters(c: Chart)
    requires c.state == ISchemeRequest && c.events.schemeReport == On(c.vars.node)
    ensures var d := Cycle(c);
      && |d.out.registrations| == |c.out.registrations| + 1
      && (d.out.registrations[|c.out.registrations|].scheme < 0 <==> c.vars.scheme < 0 && HasS0(c.vars.scheme))
      && (d.out.registrations[|c.out.registrations|].scheme < 0 ==> d.state == ISendKey)
  {}

  // ------------------------------------------------------ what decides a session

  /** What a cycle decides about a session: nothing yet, that it failed, that the network is insecure, or that the
      scheme stands. */
  datatype Verdict = Undecided | Failed | Insecure | Agreed

  /** A failure is a timeout or a failed transmission once a learn session has its scheme get and an inclusion
      session has sent its own, or the lack of a common scheme; what was awaited and came in time goes before it
      while a scheme or a key is awaited, and after it while a key or the inheritance is sent. Without a scheme get
      a controller takes the network to be insecure and a slave leaves the scheme as it was. */
  function VerdictOf(c: Chart): Verdict {
    var e, v := c.events, c.vars;
    match c.state
    case LStart =>
      if e.schemeGet.On? || !TimedOut(c) then Undecided else if v.isController then Insecure else Agreed
    case LSchemeReport =>
      if e.keySet != On(v.node) && (TimedOut(c) || e.txFail || (e.txDone && !HasS0(v.scheme))) then Failed
      else Undecided
    case LNewKey =>
      if e.txDone && !v.isController then Agreed else if TimedOut(c) || e.txFail then Failed else Undecided
    case LInherited => if e.txDone then Agreed else if e.txFail then Failed else Undecided
    case ISchemeRequest =>
      if if e.schemeReport == On(v.node) then !HasS0(v.scheme) else TimedOut(c) || e.txFail then Failed else Undecided
    case ISendKey => if TimedOut(c) || e.txFail then Failed else Undecided
    case IWaitVerify =>
      if e.keyVerify == On(v.node) then (if v.isController then Undecided else Agreed)
      else if TimedOut(c) then Failed else Undecided
    case ISendInherit =>
      if TimedOut(c) || e.txFail then Failed
      else if e.schemeReport != On(v.node) then Undecided
      else if HasS0(v.scheme) then Agreed else Failed
    case _ => Undecided
  }

  /** The status a session decided at this cycle completes with. */
  function StatusOf(c: Chart): int {
    match VerdictOf(c)
    case Failed => -1
    case Insecure => 0
    case _ => c.vars.scheme
  }

  /** The state after the one that waits, once what it waits for has come. */
  function NextOf(s: State): State {
    match s
    case LStart => LSchemeReport
    case LSchemeReport => LNewKey
    case LNewKey => LInherited
    case ISchemeRequest => ISendKey
    case ISendKey => IWaitVerify
    case IWaitVerify => ISendInherit
    case _ => s
  }

  predicate Awaited(c: Chart) {
    var e, v := c.events, c.vars;
    match c.state
    case LStart => e.schemeGet.On?
    case LSchemeReport => e.keySet == On(v.node)
    case LNewKey => e.schemeInherit == On(v.node) && v.isController
    case ISchemeRequest => e.schemeReport == On(v.node)
    case ISendKey => e.txDone
    case IWaitVerify => e.keyVerify == On(v.node)
    case _ => false
  }

  /** A session goes on exactly when what it awaits has come, ends where its verdict says, and otherwise waits. */
  lemma CycleMoves(c: Chart)
    requires InSession(c.state) && !Ending(c.state)
    ensures Cycle(c).state ==
            match VerdictOf(c)
            case Undecided => if Awaited(c) then NextOf(c.state) else c.state
            case Failed => if InLearn(c.state) then LFail else IFail
            case Insecure => LInsecureNet
            case Agreed => if InLearn(c.state) then LEnd else IEnd
  {}

  /** An idle chart serves one request a cycle: a learn request before an inclusion request before a request for the
      supported commands, which is answered with one frame and over when that is sent or has failed. */
  lemma IdleServes(c: Chart)
    ensures c.state == Idle ==>
              var d, e := Cycle(c), c.events;
              && (d.state == LStart <==> e.learnRequest)
              && (d.state == ISchemeRequest <==> e.inclusionRequest.On? && !e.learnRequest)
              && (d.state == SendReport <==> e.commandsSupported && !e.inclusionRequest.On? && !e.learnRequest)
              && (d.state in {LStart, ISchemeRequest, SendReport} || d == ClearIn(c))
              && (d.state == ISchemeRequest ==> d.vars == c.vars.(node := e.inclusionRequest.value))
              && (d.state == LStart ==> d.vars == c.vars.(netScheme := 0) && d.out.sends == c.out.sends)
              && (d.state == SendReport ==> d.out.sends == c.out.sends + [CommandsSupported] && d.vars == c.vars)
    ensures c.state == SendReport ==>
              Cycle(c) == ClearIn(c.(state := if c.events.txDone || c.events.txFail then Idle else SendReport))
  {}

  predicate Ending(s: State) {
    s in {LFail, LInsecureNet, LEnd, IFail, IEnd}
  }

  /** The state of a run before input i. */
  function At(v: Vars, inputs: seq<Input>, i: nat): Chart
    requires i <= |inputs|
  {
    Run(Entered(v), inputs[..i])
  }

  lemma AtNext(v: Vars, inputs: seq<Input>, i: nat)
    requires i < |inputs|
    ensures At(v, inputs, i + 1) == Apply(At(v, inputs, i), inputs[i])
  {
    assert inputs[..i + 1][..i] == inputs[..i];
  }

  lemma {:induction false} GlueKeepsFront(c: Chart, inputs: seq<Input>, i: nat)
    requires GlueKeepsRun(c, inputs) && i <= |inputs|
    ensures GlueKeepsRun(c, inputs[..i])
  {
    if i == |inputs| {
      assert inputs[..i] == inputs;
    } else {
      GlueKeepsFront(c, inputs[..|inputs| - 1], i);
      assert inputs[..|inputs| - 1][..i] == inputs[..i];
    }
  }

  lemma GlueKeepsAt(c: Chart, inputs: seq<Input>, i: nat)
    requires GlueKeepsRun(c, inputs) && i < |inputs|
    ensures GlueKeeps(Run(c, inputs[..i]), inputs[i])
  {
    var front := inputs[..|inputs| - 1];
    if i < |front| {
      GlueKeepsAt(c, front, i);
      assert front[..i] == inputs[..i];
    }
  }

  /** The session's outcome was decided by the cycle at input k, and stands since. */
  ghost predicate DecidedAt(v: Vars, inputs: seq<Input>, k: nat, i: nat)
    requires k < i <= |inputs|
  {
    && inputs[k].DoCycle? && !VerdictOf(At(v, inputs, k)).Undecided?
    && (forall j :: k < j <= i ==> Ending(At(v, inputs, j).state))
    && At(v, inputs, i).vars.scheme == StatusOf(At(v, inputs, k))
    && SameCalls(At(v, inputs, k), At(v, inputs, i))
  }

  /** Nothing was asked for since, but for the registrations of an inclusion. */
  predicate SameCalls(c: Chart, d: Chart) {
    && (InLearn(c.state) <==> InLearn(d.state))
    && d.out == c.out.(clock := d.out.clock, registrations := d.out.registrations)
    && (InLearn(c.state) ==> d.out.registrations == c.out.registrations)
  }

  lemma DecidedNow(c: Chart, inp: Input)
    requires !Ending(c.state) && Ending(Apply(c, inp).state)
    ensures inp.DoCycle? && !VerdictOf(c).Undecided? && Apply(c, inp).vars.scheme == StatusOf(c)
    ensures SameCalls(c, Apply(c, inp))
  {}

  lemma EndingStands(c: Chart, inp: Input)
    requires Ending(c.state) && GlueKeeps(c, inp)
    ensures Apply(c, inp).vars.scheme == c.vars.scheme
    ensures Ending(Apply(c, inp).state) ==> SameCalls(c, Apply(c, inp))
  {}

  lemma DecidedLonger(v: Vars, inputs: seq<Input>, k: nat, i: nat)
    requires k < i < |inputs| && DecidedAt(v, inputs, k, i) && Ending(At(v, inputs, i + 1).state)
    requires At(v, inputs, i + 1).vars.scheme == At(v, inputs, i).vars.scheme
    requires SameCalls(At(v, inputs, i), At(v, inputs, i + 1))
    ensures DecidedAt(v, inputs, k, i + 1)
  {}

  lemma {:induction false} SessionDecided(v: Vars, inputs: seq<Input>, i: nat) returns (k: nat)
    requires GlueKeepsRun(Entered(v), inputs) && i <= |inputs| && Ending(At(v, inputs, i).state)
    ensures k < i && DecidedAt(v, inputs, k, i)
  {
    assert i > 0;
    var c := At(v, inputs, i - 1);
    AtNext(v, inputs, i - 1);
    if Ending(c.state) {
      GlueKeepsAt(Entered(v), inputs, i - 1);
      k := SessionDecided(v, inputs, i - 1);
      EndingStands(c, inputs[i - 1]);
      DecidedLonger(v, inputs, k, i - 1);
    } else {
      DecidedNow(c, inputs[i - 1]);
      k := i - 1;
    }
  }

  /** Every inclusion session the chart completes ends that way, with -1 exactly if the cycle at input k, which
      decided it, saw it fail. */
  lemma InclusionOutcome(v: Vars, inputs: seq<Input>) returns (k: nat)
    requires GlueKeepsRun(Entered(v), inputs)
    requires Run(Entered(v), inputs).state == IEnd
    ensures EndsWell(Run(Entered(v), inputs), Run(Entered(v), inputs + [DoCycle]))
    ensures k < |inputs| && DecidedAt(v, inputs, k, |inputs|)
    ensures Run(Entered(v), inputs).vars.scheme == -1 <==> VerdictOf(At(v, inputs, k)).Failed?
  {
    RunKeepsInclusionInv(v, inputs);
    EndCompletes(Run(Entered(v), inputs));
    assert inputs[..|inputs|] == inputs && (inputs + [DoCycle])[..|inputs|] == inputs;
    k := SessionDecided(v, inputs, |inputs|);
    GlueKeepsFront(Entered(v), inputs, k);
    RunKeepsInclusionInv(v, inputs[..k]);
  }

  // ------------------------------------------------------ outcome of a learn session

  /** What a learn session that began with output o has asked for since: n frames, a prefix of scheme report, key
      verify and scheme report, all to the node that asked, the third only by a controller; with the first one the
      inclusion key is set and the node registered, and neither ever again. */
  predicate Learned(o: Output, c: Chart, n: nat) {
    var b, s, node := |o.sends|, c.out.sends, c.vars.node;
    && n <= 3 && |s| == b + n && s[..b] == o.sends
    && (n >= 1 ==> s[b].SchemeReport? && s[b].node == node)
    && (n >= 2 ==> s[b + 1].KeyVerify? && s[b + 1].node == node)
    && (n >= 3 ==> s[b + 2].SchemeReport? && s[b + 2].node == node && c.vars.isController)
    && c.out.keyOps == o.keyOps + (if n > 0 then [SetInclusionKey] else [])
    && |c.out.registrations| == |o.registrations| + (if n > 0 then 1 else 0)
    && c.out.registrations[..|o.registrations|] == o.registrations
    && (n > 0 ==> c.out.registrations[|o.registrations|].node == node)
    && c.out.completions == o.completions
  }

  /** How many frames a state's session has sent. */
  predicate Progress(s: State, n: nat) {
    match s
    case LStart => n == 0
    case LSchemeReport => n == 1
    case LNewKey => n == 2
    case LInherited => n == 3
    case LInsecureNet => n == 0
    case LFail => n >= 1
    case _ => true
  }

  predicate LearnStory(o: Output, c: Chart) {
    |c.out.sends| >= |o.sends| && var n := |c.out.sends| - |o.sends|; Learned(o, c, n) && Progress(c.state, n)
  }

  lemma CycleKeepsStory(o: Output, c: Chart)
    requires InLearn(c.state) && c.state != LEnd && LearnStory(o, c)
    ensures LearnStory(o, Cycle(c))
  {}

  /** The learn session before input i began with the cycle at input b. */
  ghost predicate LearnsSince(v: Vars, inputs: seq<Input>, b: nat, i: nat)
    requires b < i <= |inputs|
  {
    && inputs[b].DoCycle? && At(v, inputs, b).state == Idle && At(v, inputs, b).events.learnRequest
    && forall j :: b < j <= i ==> InLearn(At(v, inputs, j).state)
  }

  lemma StoryGoesOn(o: Output, c: Chart, inp: Input)
    requires InLearn(c.state) && LearnStory(o, c) && GlueKeeps(c, inp) && InLearn(Apply(c, inp).state)
    ensures LearnStory(o, Apply(c, inp))
  {
    if inp.DoCycle? {
      CycleKeepsStory(o, c);
    }
  }

  lemma StoryBegins(c: Chart, inp: Input)
    requires !InLearn(c.state) && InLearn(Apply(c, inp).state)
    ensures inp.DoCycle? && c.state == Idle && c.events.learnRequest && LearnStory(c.out, Apply(c, inp))
  {}

  lemma SinceLonger(v: Vars, inputs: seq<Input>, b: nat, i: nat)
    requires b < i < |inputs| && LearnsSince(v, inputs, b, i) && InLearn(At(v, inputs, i + 1).state)
    ensures LearnsSince(v, inputs, b, i + 1)
  {}

  /** Every learn session began with a learn request and keeps to its story. */
  lemma {:induction false} LearnBegan(v: Vars, inputs: seq<Input>, i: nat) returns (b: nat)
    requires GlueKeepsRun(Entered(v), inputs) && i <= |inputs| && InLearn(At(v, inputs, i).state)
    ensures b < i && LearnsSince(v, inputs, b, i)
    ensures LearnStory(At(v, inputs, b).out, At(v, inputs, i))
  {
    assert i > 0;
    var c := At(v, inputs, i - 1);
    AtNext(v, inputs, i - 1);
    if InLearn(c.state) {
      GlueKeepsAt(Entered(v), inputs, i - 1);
      b := LearnBegan(v, inputs, i - 1);
      SinceLonger(v, inputs, b, i - 1);
      StoryGoesOn(At(v, inputs, b).out, c, inputs[i - 1]);
    } else {
      StoryBegins(c, inputs[i - 1]);
      b := i - 1;
    }
  }

  /** Once the key exchange has begun the scheme is a mask. */
  predicate SchemeHeld(c: Chart) {
    (c.state in {LSchemeReport, LNewKey, LInherited} || (c.state == LStart && c.events.schemeGet.On?)) ==>
      c.vars.scheme >= 0
  }

  lemma HoldsOn(c: Chart, inp: Input)
    requires SchemeHeld(c) && GlueKeeps(c, inp)
    ensures SchemeHeld(Apply(c, inp))
  {}

  lemma {:induction false} SchemeStaysHeld(v: Vars, inputs: seq<Input>, i: nat)
    requires GlueKeepsRun(Entered(v), inputs) && i <= |inputs|
    ensures SchemeHeld(At(v, inputs, i))
  {
    if i > 0 {
      SchemeStaysHeld(v, inputs, i - 1);
      AtNext(v, inputs, i - 1);
      GlueKeepsAt(Entered(v), inputs, i - 1);
      HoldsOn(At(v, inputs, i - 1), inputs[i - 1]);
    }
  }

  lemma LearnEnds(c: Chart)
    requires c.state == LEnd
    ensures var d, status := Cycle(c), c.vars.scheme;
            && d.vars.netScheme == status
            && d.out == c.out.(completions := c.out.completions + [status], keyOps := c.out.keyOps + [SaveState])
  {}

  /** How every learn session ends. It began with the learn request at input b and was decided by the cycle at input
      k; by then it had sent as many frames as the deciding state's story tells. It completes once, with -1 for a
      failure, 0 for an insecure network and otherwise the scheme that stood; the same value becomes the network's
      scheme, the state is saved last, and nothing else is asked for since the decision. The status is -1 exactly
      when the session failed, but for a slave that timed out in Start with the scheme of an earlier failure. */
  lemma LearnOutcome(v: Vars, inputs: seq<Input>) returns (b: nat, k: nat)
    requires GlueKeepsRun(Entered(v), inputs) && Run(Entered(v), inputs).state == LEnd
    ensures b < k < |inputs| && LearnsSince(v, inputs, b, k) && inputs[k].DoCycle?
    ensures LearnStory(At(v, inputs, b).out, At(v, inputs, k))
    ensures var w, d := At(v, inputs, k), Run(Entered(v), inputs + [DoCycle]);
            && !VerdictOf(w).Undecided?
            && d.vars.netScheme == StatusOf(w)
            && d.out == w.out.(clock := Stopped, completions := At(v, inputs, b).out.completions + [StatusOf(w)],
                               keyOps := w.out.keyOps + [SaveState])
            && (StatusOf(w) == -1 <==>
                VerdictOf(w).Failed? || (w.state == LStart && !w.vars.isController && w.vars.scheme == -1))
  {
    var c := Run(Entered(v), inputs);
    assert inputs[..|inputs|] == inputs && (inputs + [DoCycle])[..|inputs|] == inputs;
    k := SessionDecided(v, inputs, |inputs|);
    b := LearnBegan(v, inputs, k);
    SchemeStaysHeld(v, inputs, k);
    LearnEnds(c);
    RunInvariant(v, inputs);
  }

  /** Such a slave: it hears nothing at all, fails at nothing, and completes with -1. */
  lemma StaleFailure(v: Vars)
    requires v.scheme == -1 && !v.isController
    ensures var c := Cycle(Apply(Entered(v), RaiseLearn));
            Cycle(Cycle(Apply(c, Expire(TStart)))).out.completions == [-1]
  {}

  // ------------------------------------------------------------------- the code

  /** States a cycle leaves with no event at all. */
  predicate Transient(s: State) {
    s in {LFail, LInsecureNet, LEnd, IFail, IEnd, Complete}
  }

  /** How many eventless cycles a chart in this state still needs. */
  function Settle(s: State): nat {
    match s
    case LFail => 4 case LInsecureNet => 4 case LEnd => 3
    case IFail => 4 case IEnd => 3
    case Complete => 2
    case _ => 1
  }

  /** What one cycle does to the poll loop's progress. */
  lemma CycleSettles(c: Chart)
    requires Inv(c)
    ensures Inv(Cycle(c))
    ensures |Cycle(c).out.completions| == |c.out.completions| + (if c.state in {LEnd, IEnd} then 1 else 0)
    ensures Cycle(c).state == Complete <==> c.state in {LEnd, IEnd}
    ensures InSession(c.state) && c.state !in {LEnd, IEnd} ==> InSession(Cycle(c).state)
    ensures c.events == NO_EVENTS && c.timeEvents == {} ==>
      if Transient(c.state) then Settle(Cycle(c).state) < Settle(c.state) else Cycle(c) == c
  {
    CycleKeepsInv(c);
  }

  class Handle {
    var state: State
    var position: nat
    var vars: Vars
    var events: Events
    var timeEvents: set<Timer>
    var out: Output
    ghost var reactions: nat

    ghost function View(): Chart
      reads this
    {
      Chart(state, vars, events, timeEvents, out)
    }

    constructor ()
      ensures View() == Chart(LastState, INITIAL, NO_EVENTS, {}, NOTHING) && position == 0
    {
      state, position, vars, events, timeEvents := LastState, 0, INITIAL, NO_EVENTS, {};
      out, reactions := NOTHING, 0;
    }

    /** Entering a handle as it was initialised gives the chart every run starts from. In general the chart is
        in order exactly when no timer is armed and every session so far was completed. */
    method EnterChart()
      modifies this
      ensures View() == old(View()).(state := Idle) && position == 0
      ensures old(View()) == Chart(LastState, INITIAL, NO_EVENTS, {}, NOTHING) ==> View() == Entered(INITIAL)
      ensures Inv(View()) <==> out.clock == Stopped && out.sessions == |out.completions|
    {
      state, position := Idle, 0;
    }

    /** Leaving the chart stops the active state's timer: from an invariant chart none stays armed. */
    method ExitChart()
      modifies this
      ensures old(Inv(View())) ==> out.clock == Stopped
      ensures state == LastState && vars == old(vars) && events == old(events) && timeEvents == old(timeEvents)
      ensures out == old(out).(clock := out.clock)
    {
      match state {
        case LStart => state, position := LastState, 0; Unset();
        case LSchemeReport => state, position := LastState, 0; Unset();
        case LNewKey => state, position := LastState, 0; Unset();
        case ISchemeRequest => state, position := LastState, 0; Unset();
        case ISendKey => state, position := LastState, 0; Unset();
        case ISendInherit => state, position := LastState, 0; Unset();
        case IWaitVerify => state, position := LastState, 0; Unset();
        case LastState =>
        case _ => state, position := LastState, 0;
      }
    }

    method Set(t: Timer)
      modifies this`out
      ensures out == old(out).(clock := Running(t))
    {
      out := out.(clock := Running(t));
    }

    method Unset()
      modifies this`out
      ensures out == old(out).(clock := Stopped)
    {
      out := out.(clock := Stopped);
    }

    /** A frame handed to the transport; when it is refused the glue raises tx_fail on the spot. */
    method Transmit(s: Send)
      modifies this`out, this`events
      ensures out == old(out).Sent(s)
      ensures events == old(events).(txFail := events.txFail)
    {
      out := out.Sent(s);
      var refused: bool := *;
      if refused {
        events := events.(txFail := true);
      }
    }

    /** Exit sequence of a timed state. */
    method Exit()
      modifies this`state, this`position, this`out
      ensures state == LastState && position == 0 && out == old(out).(clock := Stopped)
    {
      state, position := LastState, 0;
      Unset();
    }

    /** Entry into a Fail state: the scheme becomes -1, and in the inclusion region the node is
        registered with no scheme. */
    method Fail(region: State)
      requires region in {LFail, IFail}
      modifies this`state, this`position, this`vars, this`out
      ensures state == region && position == 0 && vars == old(vars).(scheme := -1)
      ensures out == if region == IFail then old(out).Register(vars.node, 0) else old(out)
    {
      vars := vars.(scheme := -1);
      if region == IFail {
        out := out.Register(vars.node, 0);
      }
      state, position := region, 0;
    }

    // Each reaction refines its specification up to a tx_fail raised by a refused send meanwhile.

    method LearnStart()
      requires state == LStart && position == 0
      modifies this`state, this`position, this`vars, this`events, this`out
      ensures position == 0 && View().(events := old(events)) == LStartReaction(old(View()))
    {
      if events.schemeGet.On? {
        Exit();
        vars := vars.(node := events.schemeGet.value);
        Set(TSchemeReport);
        Transmit(SchemeReport(vars.node, vars.tx));
        out := out.KeyDone(SetInclusionKey);
        out := out.Register(vars.node, vars.scheme);
        state, position := LSchemeReport, 0;
      } else if TStart in timeEvents {
        Exit();
        if vars.isController {
          vars := vars.(scheme := 0);
          state, position := LInsecureNet, 0;
        } else {
          state, position := LEnd, 0;
        }
      }
    }

    method LearnSchemeReport()
      requires state == LSchemeReport && position == 0
      modifies this`state, this`position, this`vars, this`events, this`out
      ensures position == 0 && View().(events := old(events)) == LSchemeReportReaction(old(View()))
    {
      if events.keySet.On? && events.keySet.value == vars.node {
        Exit();
        Set(TNewKey);
        Transmit(KeyVerify(vars.node, vars.tx));
        vars := vars.(netScheme := vars.scheme % 2);
        state, position := LNewKey, 0;
      } else if TSchemeReport in timeEvents || events.txFail {
        Exit();
        Fail(LFail);
      } else if events.txDone && vars.scheme % 2 == 0 {
        Exit();
        Fail(LFail);
      }
    }

    method LearnNewKey()
      requires state == LNewKey && position == 0
      modifies this`state, this`position, this`vars, this`events, this`out
      ensures position == 0 && View().(events := old(events)) == LNewKeyReaction(old(View()))
    {
      if events.txDone && !vars.isController {
        Exit();
        state, position := LEnd, 0;
      } else if TNewKey in timeEvents || events.txFail {
        Exit();
        Fail(LFail);
      } else if events.schemeInherit.On? && events.schemeInherit.value == vars.node && vars.isController {
        Exit();
        Transmit(SchemeReport(vars.node, vars.tx));
        state, position := LInherited, 0;
      }
    }

    method LearnInherited()
      requires state == LInherited && position == 0
      modifies this`state, this`position, this`vars, this`out
      ensures position == 0 && View() == LInheritedReaction(old(View()))
    {
      if events.txDone {
        state, position := LEnd, 0;
      } else if events.txFail {
        Fail(LFail);
      }
    }

    method LearnEnd()
      requires state == LEnd && position == 0
      modifies this`state, this`position, this`vars, this`out
      ensures position == 0 && View() == LEndReaction(old(View()))
    {
      state, position := LastState, 0;
      vars := vars.(netScheme := vars.scheme);
      out := out.KeyDone(SaveState);
      out := out.Completed(vars.scheme);
      state, position := Complete, 0;
    }

    method InclusionSchemeRequest()
      requires state == ISchemeRequest && position == 0
      modifies this`state, this`position, this`vars, this`events, this`out
      ensures position == 0 && View().(events := old(events)) == ISchemeRequestReaction(old(View()))
    {
      if events.schemeReport.On? && events.schemeReport.value == vars.node {
        Exit();
        if vars.scheme % 2 > 0 {
          out := out.Register(vars.node, vars.scheme);
          Set(TSendKey);
          Transmit(Key(vars.node, vars.tx));
          state, position := ISendKey, 0;
        } else {
          Fail(IFail);
        }
      } else if TSchemeRequest in timeEvents || events.txFail {
        Exit();
        Fail(IFail);
      }
    }

    method InclusionSendKey()
      requires state == ISendKey && position == 0
      modifies this`state, this`position, this`vars, this`out
      ensures position == 0 && View() == ISendKeyReaction(old(View()))
    {
      if events.txFail || TSendKey in timeEvents {
        Exit();
        Fail(IFail);
      } else if events.txDone {
        Exit();
        Set(TWaitVerify);
        out := out.KeyDone(RestoreKey);
        state, position := IWaitVerify, 0;
      }
    }

    method InclusionWaitVerify()
      requires state == IWaitVerify && position == 0
      modifies this`state, this`position, this`vars, this`events, this`out
      ensures position == 0 && View().(events := old(events)) == IWaitVerifyReaction(old(View()))
    {
      if events.keyVerify.On? && vars.node == events.keyVerify.value {
        Exit();
        if vars.isController {
          Set(TSendInherit);
          Transmit(SchemeInherit(vars.node, vars.tx));
          state, position := ISendInherit, 0;
        } else {
          out := out.Register(vars.node, vars.scheme);
          state, position := IEnd, 0;
        }
      } else if TWaitVerify in timeEvents {
        Exit();
        Fail(IFail);
      }
    }

    method InclusionSendInherit()
      requires state == ISendInherit && position == 0
      modifies this`state, this`position, this`vars, this`out
      ensures position == 0 && View() == ISendInheritReaction(old(View()))
    {
      if TSendInherit in timeEvents || events.txFail {
        Exit();
        Fail(IFail);
      } else if events.schemeReport.On? && events.schemeReport.value == vars.node {
        Exit();
        out := out.Register(vars.node, vars.scheme);
        if vars.scheme % 2 > 0 {
          state, position := IEnd, 0;
        } else {
          Fail(IFail);
        }
      }
    }

    method InclusionEnd()
      requires state == IEnd && position == 0
      modifies this`state, this`position, this`out
      ensures position == 0 && View() == IEndReaction(old(View()))
    {
      state, position := LastState, 0;
      out := out.Completed(vars.scheme);
      state, position := Complete, 0;
    }

    method MainIdle()
      requires state == Idle && position == 0
      modifies this`state, this`position, this`vars, this`events, this`out
      ensures position == 0 && View().(events := old(events)) == IdleReaction(old(View()))
    {
      if events.learnRequest {
        state, position := LastState, 0;
        Set(TStart);
        vars := vars.(netScheme := 0);
        out := out.Started();
        state, position := LStart, 0;
      } else if events.inclusionRequest.On? {
        state, position := LastState, 0;
        vars := vars.(node := events.inclusionRequest.value);
        out := out.Started();
        Set(TSchemeRequest);
        Transmit(SchemeGet(vars.node, vars.tx));
        state, position := ISchemeRequest, 0;
      } else if events.commandsSupported {
        state, position := LastState, 0;
        Transmit(CommandsSupported);
        state, position := SendReport, 0;
      }
    }

    method Dispatch()
      requires position == 0
      modifies this`state, this`position, this`vars, this`events, this`out
      ensures position == 0 && View().(events := old(events)) == React(old(View()))
    {
      match state {
        case LStart => LearnStart();
        case LSchemeReport => LearnSchemeReport();
        case LFail => state, position := LEnd, 0;
        case LNewKey => LearnNewKey();
        case LInherited => LearnInherited();
        case LInsecureNet => state, position := LEnd, 0;
        case LEnd => LearnEnd();
        case Idle => MainIdle();
        case ISchemeRequest => InclusionSchemeRequest();
        case ISendKey => InclusionSendKey();
        case ISendInherit => InclusionSendInherit();
        case IFail => state, position := IEnd, 0;
        case IEnd => InclusionEnd();
        case IWaitVerify => InclusionWaitVerify();
        case Complete => state, position := Idle, 0;
        case SendReport =>
          if events.txDone || events.txFail {
            state, position := Idle, 0;
          }
        case _ =>
      }
    }

    /** One cycle. Reactions reset the loop index, yet exactly one reaction runs; a tx_fail raised by a
        refused send during the cycle is cleared with the other events, so it is never seen. */
    method RunCycle()
      modifies this
      ensures View() == Cycle(old(View()))
      ensures reactions == old(reactions) + 1
    {
      position := 0;
      while position < 1
        invariant position == 0 ==> View() == old(View()) && reactions == old(reactions)
        invariant position >= 1 ==>
          && View().(events := old(events)) == React(old(View()))
          && reactions == old(reactions) + 1
        decreases 1 - position
      {
        reactions := reactions + 1;
        Dispatch();
        position := position + 1;
      }
      events := NO_EVENTS;
      timeEvents := {};
    }

    /** A timer service callback: the timer has run out and its time event is raised. */
    method RaiseTimeEvent(t: Timer)
      requires out.clock == Running(t)
      modifies this`out, this`timeEvents
      ensures View() == Apply(old(View()), Expire(t))
    {
      out := out.(clock := Stopped);
      timeEvents := timeEvents + {t};
    }

    /** The glue's poll: cycles until the state stops changing. It terminates, ends with no event
        pending in a state that needs an event to be left, and completes at most one session. */
    method Poll()
      requires Inv(View())
      modifies this
      ensures Inv(View()) && !Transient(state)
      ensures timeEvents == {} && events == NO_EVENTS
      ensures |out.completions| <= old(|out.completions|) + 1
      ensures old(InSession(state)) ==>
        (InSession(state) <==> |out.completions| == old(|out.completions|))
    {
      var last := LastState;
      ghost var quiet := false;
      while last != state
        invariant Inv(View())
        invariant quiet ==> timeEvents == {} && events == NO_EVENTS
        invariant !quiet ==> View() == old(View()) && last == LastState
        invariant last == state ==> quiet && !Transient(state)
        invariant quiet && last != state ==> state != LastState
        invariant |out.completions| <= old(|out.completions|) + 1
        invariant |out.completions| == old(|out.completions|) + 1 ==> quiet && state in {Complete, Idle}
        invariant old(InSession(state)) ==> (InSession(state) <==> |out.completions| == old(|out.completions|))
        decreases !quiet, if last == state then 0 else Settle(state)
      {
        CycleSettles(View());
        last := state;
        RunCycle();
        quiet := true;
      }
    }
  }
}
