/** Probing a node for the versions of the command classes the gateway controls
    (src/RD_probe_cc_version.c, with the version table of src/RD_internal.c). The machine posts events to
    itself until a request is in the air, and goes on from the request's callback. Requests are taken to be
    accepted and answered once, well or badly. */
module VersionProbe {

  /** controlled_cc_v, with its sentinel. */
  const CONTROLLED: seq<nat> := [0x86, 0x5E, 0x72, 0x84, 0x60, 0x85, 0x8E, 0xFFFF]
  const CLASSES: nat := 7
  const VERSION: nat := 0x86
  const V3: nat := 3

  datatype Pair = Pair(cc: nat, version: nat)

  datatype ProbeFlags = NeverStarted | Started | Failed | Completed

  /** usable: the version table is there and the node is not marked deleted. */
  datatype Node = Node(versions: seq<Pair>, usable: bool, cap: nat, zwsProbed: bool, flags: ProbeFlags)

  datatype Request = CcVersion(cc: nat) | Capabilities | Software

  /** value: the version in a class report, the properties in a capabilities report. */
  datatype Answer = Answer(ok: bool, cc: nat, value: nat)

  datatype Story = Story(asked: seq<Request>, answers: seq<Answer>, calls: seq<nat>)

  datatype PcvState =
    | PcvIdle | SendVersionCcGet | LastReport | CheckIfV3 | SendVersionCapGet | SendVersionZwsGet | ProbeDone

  datatype Event =
    | Initial | Start | NotLast | CcProbed | CcNotSupported | CcReport | CcFail | CcDone
    | IsV3 | NotV3 | CapProbed | CapReport | CapFail | ZwsProbed | ZwsNotSupported | ZwsReport | ZwsFail

  // ------------------------------------------------------------------ the version table

  /** The version of the first entry for the class, 0 if there is none. */
  function Lookup(t: seq<Pair>, cc: nat): nat {
    if |t| == 0 then 0 else if t[0].cc == cc then t[0].version else Lookup(t[1..], cc)
  }

  predicate Listed(t: seq<Pair>, cc: nat) {
    exists i :: 0 <= i < |t| && t[i].cc == cc
  }

  function Get(n: Node, cc: nat): nat {
    if n.usable then Lookup(n.versions, cc) else 0
  }

  lemma {:induction false} LookupAt(t: seq<Pair>, i: nat)
    requires i < |t| && forall j :: 0 <= j < i ==> t[j].cc != t[i].cc
    ensures Lookup(t, t[i].cc) == t[i].version
  {
    if i > 0 {
      LookupAt(t[1..], i - 1);
    }
  }

  lemma {:induction false} LookupMissing(t: seq<Pair>, cc: nat)
    requires !Listed(t, cc)
    ensures Lookup(t, cc) == 0
  {
    if |t| > 0 {
      assert t[0].cc != cc;
      forall i | 0 <= i < |t[1..]| ensures t[1..][i].cc != cc {
        assert t[i + 1].cc != cc;
      }
      LookupMissing(t[1..], cc);
    }
  }

  lemma {:induction false} LookupOther(t: seq<Pair>, i: nat, v: nat, cc: nat)
    requires i < |t| && t[i].cc != cc
    ensures Lookup(t[i := t[i].(version := v)], cc) == Lookup(t, cc)
  {
    var u := t[i := t[i].(version := v)];
    if i > 0 {
      LookupOther(t[1..], i - 1, v, cc);
      assert u[1..] == t[1..][i - 1 := t[i].(version := v)];
    } else {
      assert u[1..] == t[1..];
    }
  }

  method VersionGet(n: Node, cc: nat) returns (version: nat)
    ensures version == Get(n, cc)
  {
    if !n.usable {
      return 0;
    }
    var i := 0;
    while i < |n.versions|
      invariant 0 <= i <= |n.versions| && forall j :: 0 <= j < i ==> n.versions[j].cc != cc
    {
      if n.versions[i].cc == cc {
        LookupAt(n.versions, i);
        return n.versions[i].version;
      }
      i := i + 1;
    }
    LookupMissing(n.versions, cc);
    return 0;
  }

  /** Sets the version of one class and of no other. */
  method VersionSet(n: Node, cc: nat, version: nat) returns (m: Node)
    ensures m == n.(versions := m.versions) && |m.versions| == |n.versions|
    ensures forall i :: 0 <= i < |n.versions| ==> m.versions[i].cc == n.versions[i].cc
    ensures forall d: nat :: d != cc ==> Get(m, d) == Get(n, d)
    ensures n.usable && Listed(n.versions, cc) ==> Get(m, cc) == version
    ensures Get(n, cc) == 0 ==>
              forall i :: 0 <= i < |n.versions| && n.versions[i].version != 0 ==> m.versions[i] == n.versions[i]
  {
    if !n.usable {
      return n;
    }
    var i := 0;
    while i < |n.versions|
      invariant 0 <= i <= |n.versions| && forall j :: 0 <= j < i ==> n.versions[j].cc != cc
    {
      if n.versions[i].cc == cc {
        m := n.(versions := n.versions[i := Pair(cc, version)]);
        LookupAt(n.versions, i);
        LookupAt(m.versions, i);
        forall d: nat | d != cc ensures Get(m, d) == Get(n, d) {
          LookupOther(n.versions, i, version, d);
        }
        return;
      }
      i := i + 1;
    }
    return n;
  }

  // ------------------------------------------------------------------ what a probe owes

  predicate Good(r: Request, a: Answer) {
    a.ok && (r.CcVersion? ==> a.cc == r.cc && a.value >= 1)
  }

  /** A class or capabilities request failed; a failed software request does not count. */
  predicate AnyFailed(st: Story)
    requires |st.answers| <= |st.asked|
  {
    exists i :: 0 <= i < |st.answers| && !st.asked[i].Software? && !Good(st.asked[i], st.answers[i])
  }

  /** Class k is supported by the endpoint and its version is unknown. */
  predicate Wanted(n: Node, supported: set<nat>, k: nat)
    requires k < CLASSES
  {
    CONTROLLED[k] in supported && Get(n, CONTROLLED[k]) == 0
  }

  /** The class requests due for the first k controlled classes. */
  function Due(n: Node, supported: set<nat>, k: nat): (r: seq<Request>)
    requires k <= CLASSES
    ensures |r| <= k
    ensures forall i :: 0 <= i < |r| ==> r[i].CcVersion? && exists j :: 0 <= j < k && CONTROLLED[j] == r[i].cc
  {
    if k == 0 then []
    else Due(n, supported, k - 1) + (if Wanted(n, supported, k - 1) then [CcVersion(CONTROLLED[k - 1])] else [])
  }

  lemma ControlledIsDistinct(k: nat)
    requires k < CLASSES
    ensures forall j :: 0 <= j <= CLASSES && j != k ==> CONTROLLED[j] != CONTROLLED[k]
  {
  }

  lemma DueIsDistinct(n: Node, supported: set<nat>, k: nat)
    requires k < CLASSES
    ensures forall i :: 0 <= i < |Due(n, supported, k)| ==> Due(n, supported, k)[i].cc != CONTROLLED[k]
  {
    ControlledIsDistinct(k);
  }

  /** The three lowest bits: version, class versions and software. */
  predicate AllReports(cap: nat) {
    cap % 8 == 7
  }

  // The bits of the capabilities, one by one.

  predicate ReportsVersion(cap: nat) { cap % 2 == 1 }

  predicate ReportsClasses(cap: nat) { cap / 2 % 2 == 1 }

  predicate ReportsSoftware(cap: nat) { cap / 2 / 2 % 2 == 1 }

  lemma LowBits(q: nat, b: nat)
    requires b < 8
    ensures (8 * q + b) % 8 == b
  {}

  lemma BitByBit(cap: nat)
    ensures AllReports(cap) <==> ReportsVersion(cap) && ReportsClasses(cap) && ReportsSoftware(cap)
  {
    var a := cap / 2;
    var b := a / 2;
    LowBits(b / 2, 4 * (b % 2) + 2 * (a % 2) + cap % 2);
    assert cap == 8 * (b / 2) + (4 * (b % 2) + 2 * (a % 2) + cap % 2);
  }

  /** All requests of a probe that starts at n and leaves m. */
  function AllDue(n: Node, supported: set<nat>, m: Node): (r: seq<Request>)
    ensures |r| <= 9
  {
    var v3 := Get(m, 0x86) == 3;
    Due(n, supported, CLASSES)
    + (if v3 && n.cap == 0 then [Capabilities] else [])
    + (if v3 && AllReports(m.cap) && !n.zwsProbed then [Software] else [])
  }

  /** The class has this version, unless the node keeps no version for it at all. */
  predicate Holds(m: Node, cc: nat, version: nat) {
    m.usable && Listed(m.versions, cc) ==> Get(m, cc) == version
  }

  /** What the answers so far have done to the node. */
  ghost predicate Recorded(n: Node, m: Node, st: Story) {
    && |st.answers| <= |st.asked|
    && |m.versions| == |n.versions| && m.usable == n.usable
    && (forall i :: 0 <= i < |n.versions| ==> m.versions[i].cc == n.versions[i].cc)
    && (forall i :: 0 <= i < |n.versions| && n.versions[i].version != 0 ==> m.versions[i] == n.versions[i])
    && (forall i :: 0 <= i < |st.answers| && st.asked[i].CcVersion? && Good(st.asked[i], st.answers[i]) ==>
          Holds(m, st.asked[i].cc, st.answers[i].value))
    && Extras(n, m, st)
  }

  /** The capabilities are the ones reported, the software counts as probed once it was reported, and without
      such a report either is as before. */
  ghost predicate Extras(n: Node, m: Node, st: Story)
    requires |st.answers| <= |st.asked|
  {
    && (forall i :: 0 <= i < |st.answers| && st.asked[i].Capabilities? && st.answers[i].ok ==>
          m.cap == st.answers[i].value)
    && ((forall i :: 0 <= i < |st.answers| && st.asked[i].Capabilities? ==> !st.answers[i].ok) ==> m.cap == n.cap)
    && (m.zwsProbed <==>
        n.zwsProbed || exists i :: 0 <= i < |st.answers| && st.asked[i].Software? && st.answers[i].ok)
  }

  /** One more answer: to the capabilities request, asked once, to the software request, or to another one. */
  lemma ExtrasSnoc(n: Node, m: Node, st: Story, a: Answer, k: Node)
    requires |st.answers| < |st.asked| && Extras(n, m, st)
    requires var q := st.asked[|st.answers|];
             && k.cap == (if q.Capabilities? && a.ok then a.value else m.cap)
             && (k.zwsProbed <==> m.zwsProbed || (q.Software? && a.ok))
             && (q.Capabilities? ==> forall i :: 0 <= i < |st.answers| ==> !st.asked[i].Capabilities?)
    ensures Extras(n, k, st.(answers := st.answers + [a]))
  {
    var tt := st.(answers := st.answers + [a]);
    assert forall i :: 0 <= i < |st.answers| ==> tt.answers[i] == st.answers[i];
    assert tt.answers[|st.answers|] == a;
    if exists i :: 0 <= i < |st.answers| && st.asked[i].Software? && st.answers[i].ok {
      var i :| 0 <= i < |st.answers| && st.asked[i].Software? && st.answers[i].ok;
      assert tt.asked[i].Software? && tt.answers[i].ok;
    }
  }

  lemma FailedSnoc(st: Story, a: Answer)
    requires |st.answers| < |st.asked|
    ensures var i := |st.answers|;
            AnyFailed(st.(answers := st.answers + [a])) <==>
            AnyFailed(st) || (!st.asked[i].Software? && !Good(st.asked[i], a))
  {
    var k := |st.answers|;
    var tt := st.(answers := st.answers + [a]);
    assert tt.answers[k] == a;
    if AnyFailed(st) {
      var i :| 0 <= i < |st.answers| && !st.asked[i].Software? && !Good(st.asked[i], st.answers[i]);
      assert tt.answers[i] == st.answers[i];
    }
    if AnyFailed(tt) {
      var i :| 0 <= i < |tt.answers| && !tt.asked[i].Software? && !Good(tt.asked[i], tt.answers[i]);
      assert i < k ==> tt.answers[i] == st.answers[i];
    }
  }

  /** A good class report enters the version it reports; the classes asked before keep theirs. */
  lemma ReportRecorded(n: Node, m: Node, st: Story, a: Answer, k: Node)
    requires Recorded(n, m, st) && |st.answers| < |st.asked|
    requires st.asked[|st.answers|].CcVersion? && Good(st.asked[|st.answers|], a)
    requires var cc := st.asked[|st.answers|].cc;
             && Get(m, cc) == 0
             && (forall i :: 0 <= i < |st.answers| && st.asked[i].CcVersion? ==> st.asked[i].cc != cc)
             && k == m.(versions := k.versions) && |k.versions| == |m.versions|
             && (forall i :: 0 <= i < |m.versions| ==> k.versions[i].cc == m.versions[i].cc)
             && (forall d: nat :: d != cc ==> Get(k, d) == Get(m, d))
             && Holds(k, cc, a.value)
             && (forall i :: 0 <= i < |m.versions| && m.versions[i].version != 0 ==> k.versions[i] == m.versions[i])
    ensures Recorded(n, k, st.(answers := st.answers + [a]))
  {
    ExtrasSnoc(n, m, st, a, k);
    var tt := st.(answers := st.answers + [a]);
    forall i | 0 <= i < |tt.answers| && tt.asked[i].CcVersion? && Good(tt.asked[i], tt.answers[i])
      ensures Holds(k, tt.asked[i].cc, tt.answers[i].value)
    {
      if i < |st.answers| {
        var c := st.asked[i].cc;
        assert Holds(m, c, st.answers[i].value);
        if Listed(k.versions, c) {
          var j :| 0 <= j < |k.versions| && k.versions[j].cc == c;
          assert m.versions[j].cc == c;
        }
      }
    }
  }

  // ------------------------------------------------------------------ the machine

  function Rank(st: PcvState): nat {
    match st
    case PcvIdle => 6
    case LastReport => 5
    case SendVersionCcGet => 4
    case CheckIfV3 => 3
    case SendVersionCapGet => 2
    case SendVersionZwsGet => 1
    case ProbeDone => 0
  }

  /** The events a state reacts to. */
  predicate Reacts(st: PcvState, ev: Event) {
    match st
    case PcvIdle => ev.Initial?
    case SendVersionCcGet => ev.Start? || ev.NotLast?
    case LastReport => ev.CcReport? || ev.CcProbed? || ev.CcNotSupported? || ev.CcFail?
    case CheckIfV3 => ev.CcDone?
    case SendVersionCapGet => ev.IsV3?
    case SendVersionZwsGet => ev.CapReport? || ev.CapProbed?
    case ProbeDone =>
      ev.ZwsNotSupported? || ev.ZwsReport? || ev.NotV3? || ev.ZwsFail? || ev.CapFail? || ev.ZwsProbed?
  }

  class Probe {
    const supported: set<nat>
    ghost const start: Node
    var n: Node
    var state: PcvState
    var idx: nat
    var requested: nat
    var story: Story

    constructor (node: Node, supported: set<nat>)
      ensures n == node && start == node && this.supported == supported && state == PcvIdle
      ensures story == Story([], [], [])
    {
      n, start, this.supported := node, node, supported;
      state, idx, requested := PcvIdle, 0, 0;
      story := Story([], [], []);
    }

    ghost predicate Common()
      reads this
    {
      && idx <= CLASSES
      && Recorded(start, n, story)
      && n.flags == (if AnyFailed(story) then Failed else Started)
      && (forall j :: idx <= j < CLASSES ==> Get(n, CONTROLLED[j]) == Get(start, CONTROLLED[j]))
      && story.calls == []
    }

    /** Every request so far is answered and the machine may go on from its state. */
    ghost predicate Ready()
      reads this
    {
      && Common()
      && |story.answers| == |story.asked|
      && match state
         case PcvIdle => idx == 0 && story.asked == [] && n.cap == start.cap && n.zwsProbed == start.zwsProbed
         case SendVersionCcGet =>
           && idx < CLASSES && story.asked == Due(start, supported, idx)
           && n.cap == start.cap && n.zwsProbed == start.zwsProbed
         case LastReport =>
           story.asked == Due(start, supported, idx) && n.cap == start.cap && n.zwsProbed == start.zwsProbed
         case CheckIfV3 =>
           && idx == CLASSES && story.asked == Due(start, supported, CLASSES)
           && n.cap == start.cap && n.zwsProbed == start.zwsProbed
         case SendVersionCapGet =>
           && idx == CLASSES && story.asked == Due(start, supported, CLASSES) && Get(n, VERSION) == V3
           && n.cap == start.cap && n.zwsProbed == start.zwsProbed
         case SendVersionZwsGet =>
           && idx == CLASSES && Get(n, VERSION) == V3 && n.zwsProbed == start.zwsProbed
           && story.asked == Due(start, supported, CLASSES) + (if start.cap == 0 then [Capabilities] else [])
         case ProbeDone => idx == CLASSES && story.asked == AllDue(start, supported, n)
    }

    /** One request is in the air. */
    ghost predicate Waiting()
      reads this
    {
      && Common()
      && |story.answers| + 1 == |story.asked| <= 9
      && match state
         case SendVersionCcGet =>
           && idx < CLASSES && Wanted(start, supported, idx) && requested == CONTROLLED[idx]
           && story.asked == Due(start, supported, idx) + [CcVersion(CONTROLLED[idx])]
           && n.cap == start.cap && n.zwsProbed == start.zwsProbed
         case SendVersionCapGet =>
           && idx == CLASSES && Get(n, VERSION) == V3 && start.cap == 0
           && story.asked == Due(start, supported, CLASSES) + [Capabilities]
           && n.cap == start.cap && n.zwsProbed == start.zwsProbed
         case SendVersionZwsGet =>
           && idx == CLASSES && Get(n, VERSION) == V3 && AllReports(n.cap) && !start.zwsProbed
           && story.asked == AllDue(start, supported, n)
         case _ => false
    }

    /** The callback was called once, with 1 exactly when a class or capabilities request failed. */
    ghost predicate Finished()
      reads this
    {
      && Recorded(start, n, story)
      && |story.answers| == |story.asked| <= 9
      && story.asked == AllDue(start, supported, n)
      && story.calls == [if AnyFailed(story) then 1 else 0]
      && n.flags == (if AnyFailed(story) then Failed else Completed)
    }

    /** pcv_fsm_post_event. */
    method PostEvent(ev: Event)
      requires Ready() && Reacts(state, ev)
      modifies this
      ensures Waiting() || Finished()
      ensures Waiting() ==> idx > old(idx) || (idx == old(idx) && Rank(state) <= Rank(old(state)))
      decreases CLASSES - idx, Rank(state), 1
    {
      if state.PcvIdle? {
        idx := 0;
        state := SendVersionCcGet;
        assert story.asked == Due(start, supported, 0);
        PostEvent(Start);
      } else if state.SendVersionCcGet? {
        OnSendCcGet();
      } else if state.LastReport? {
        if CONTROLLED[idx] != 0xFFFF {
          state := SendVersionCcGet;
          PostEvent(NotLast);
        } else {
          state := CheckIfV3;
          PostEvent(CcDone);
        }
      } else if state.CheckIfV3? {
        var version := VersionGet(n, VERSION);
        if version == V3 {
          state := SendVersionCapGet;
          PostEvent(IsV3);
        } else {
          state := ProbeDone;
          PostEvent(NotV3);
        }
      } else {
        OnLastStates();
      }
    }

    method OnSendCcGet()
      requires Ready() && state.SendVersionCcGet?
      modifies this
      ensures Waiting() || Finished()
      ensures Waiting() ==> idx > old(idx) || (idx == old(idx) && state.SendVersionCcGet?)
      decreases CLASSES - idx, Rank(state), 0
    {
      var cc := CONTROLLED[idx];
      if cc in supported {
        var version := VersionGet(n, cc);
        if version == 0 {
          requested := cc;
          story := story.(asked := story.asked + [CcVersion(cc)]);
        } else {
          Skip(CcProbed);
        }
      } else {
        Skip(CcNotSupported);
      }
    }

    method Skip(ev: Event)
      requires Ready() && state.SendVersionCcGet? && !Wanted(start, supported, idx)
      requires ev.CcProbed? || ev.CcNotSupported?
      modifies this
      ensures Waiting() || Finished()
      ensures Waiting() ==> idx > old(idx)
      decreases CLASSES - idx - 1, 6
    {
      idx := idx + 1;
      state := LastReport;
      PostEvent(ev);
    }

    method OnLastStates()
      requires Ready() && (state.SendVersionCapGet? || state.SendVersionZwsGet? || state.ProbeDone?)
      modifies this
      ensures Waiting() || Finished()
      ensures Waiting() ==> idx == old(idx) && Rank(state) <= Rank(old(state))
      decreases CLASSES - idx, Rank(state), 0
    {
      if state.SendVersionCapGet? {
        if n.cap == 0 {
          story := story.(asked := story.asked + [Capabilities]);
        } else {
          state := SendVersionZwsGet;
          PostEvent(CapProbed);
        }
      } else if state.SendVersionZwsGet? {
        OnSendSoftwareGet();
      } else {
        OnProbeDone();
      }
    }

    /** The software is asked for if all three reports are supported. */
    method OnSendSoftwareGet()
      requires Ready() && state.SendVersionZwsGet?
      modifies this
      ensures (Waiting() && idx == old(idx) && state.SendVersionZwsGet?) || Finished()
      decreases CLASSES - idx, 0, 2
    {
      BitByBit(n.cap);
      if ReportsVersion(n.cap) && ReportsClasses(n.cap) && ReportsSoftware(n.cap) {
        if !n.zwsProbed {
          story := story.(asked := story.asked + [Software]);
        } else {
          state := ProbeDone;
          PostEvent(ZwsProbed);
        }
      } else {
        state := ProbeDone;
        PostEvent(ZwsNotSupported);
      }
    }

    method OnProbeDone()
      requires Ready() && state.ProbeDone?
      modifies this
      ensures Finished()
      decreases 0
    {
      if n.flags == Failed {
        story := story.(calls := story.calls + [1]);
      } else {
        n := n.(flags := Completed);
        story := story.(calls := story.calls + [0]);
      }
    }

    method EnterVersion(a: Answer)
      requires Waiting() && state.SendVersionCcGet? && Good(CcVersion(requested), a)
      modifies this`n, this`story
      ensures Recorded(start, n, story) && story == old(story).(answers := old(story.answers) + [a])
      ensures n == old(n).(versions := n.versions)
      ensures forall j :: idx < j < CLASSES ==> Get(n, CONTROLLED[j]) == Get(start, CONTROLLED[j])
      ensures AnyFailed(story) == AnyFailed(old(story))
    {
      FailedSnoc(story, a);
      ControlledIsDistinct(idx);
      DueIsDistinct(start, supported, idx);
      var m := VersionSet(n, requested, a.value);
      ReportRecorded(start, n, story, a, m);
      n := m;
      story := story.(answers := story.answers + [a]);
    }

    method TakeReport(a: Answer) returns (good: bool)
      requires Waiting() && state.SendVersionCcGet?
      modifies this`n, this`story
      ensures Recorded(start, n, story) && story == old(story).(answers := old(story.answers) + [a])
      ensures n == old(n).(versions := n.versions, flags := if AnyFailed(story) then Failed else Started)
      ensures forall j :: idx < j < CLASSES ==> Get(n, CONTROLLED[j]) == Get(start, CONTROLLED[j])
    {
      good := a.ok && a.cc == requested && a.value >= 1;
      if good {
        EnterVersion(a);
      } else {
        ExtrasSnoc(start, n, story, a, n);
        n := n.(flags := Failed);
        FailedSnoc(story, a);
        story := story.(answers := story.answers + [a]);
      }
    }

    method CcVersionCallback(a: Answer)
      requires Waiting() && state.SendVersionCcGet?
      modifies this
      ensures Waiting() || Finished()
      ensures Waiting() ==> idx > old(idx)
    {
      var good := TakeReport(a);
      idx := idx + 1;
      state := LastReport;
      PostEvent(if good then CcReport else CcFail);
    }

    /** Takes a capabilities or software report, good or bad. */
    method TakeExtra(a: Answer)
      requires Waiting() && !state.SendVersionCcGet?
      modifies this`n, this`story
      ensures Recorded(start, n, story) && story == old(story).(answers := old(story.answers) + [a])
      ensures n == old(n).(flags := n.flags,
        cap := if state.SendVersionCapGet? && a.ok then a.value else old(n).cap,
        zwsProbed := if state.SendVersionZwsGet? && a.ok then true else old(n).zwsProbed)
      ensures n.flags == if AnyFailed(story) then Failed else Started
      ensures AnyFailed(story) <==> AnyFailed(old(story)) || (state.SendVersionCapGet? && !a.ok)
    {
      var m := n;
      if a.ok {
        m := if state.SendVersionCapGet? then n.(cap := a.value) else n.(zwsProbed := true);
      } else if state.SendVersionCapGet? {
        m := n.(flags := Failed);
      }
      ExtrasSnoc(start, n, story, a, m);
      FailedSnoc(story, a);
      n := m;
      story := story.(answers := story.answers + [a]);
    }

    method CapabilitiesCallback(a: Answer)
      requires Waiting() && state.SendVersionCapGet?
      modifies this
      ensures Waiting() || Finished()
      ensures Waiting() ==> idx == old(idx) && Rank(state) < Rank(old(state))
    {
      TakeExtra(a);
      if a.ok {
        state := SendVersionZwsGet;
        PostEvent(CapReport);
      } else {
        state := ProbeDone;
        PostEvent(CapFail);
      }
    }

    method SoftwareCallback(a: Answer)
      requires Waiting() && state.SendVersionZwsGet?
      modifies this
      ensures Finished()
    {
      TakeExtra(a);
      state := ProbeDone;
      PostEvent(if a.ok then ZwsReport else ZwsFail);
    }

    /** rd_ep_probe_cc_version: whatever the answers, the probe ends with one call of its callback. */
    method Run(self: bool)
      requires n == start && state == PcvIdle && story == Story([], [], [])
      modifies this
      ensures self ==> story == Story([], [], [0]) && n == start
      ensures !self ==> Finished()
    {
      if self {
        story := story.(calls := [0]);
        return;
      }
      n := n.(flags := Started);
      idx := 0;
      PostEvent(Initial);
      while story.calls == []
        invariant Waiting() || Finished()
        decreases 1 - |story.calls|, CLASSES - idx, Rank(state)
      {
        var ok: bool, cc: nat, value: nat := *, *, *;
        if state.SendVersionCcGet? {
          CcVersionCallback(Answer(ok, cc, value));
        } else if state.SendVersionCapGet? {
          CapabilitiesCallback(Answer(ok, cc, value));
        } else {
          SoftwareCallback(Answer(ok, cc, value));
        }
      }
    }
  }
}
