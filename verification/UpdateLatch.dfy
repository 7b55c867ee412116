/** The network-update latch (networkUpdateStatusFlags of src/CC_NetworkManagement.c) and what a history of
    armings, resets and offers makes of it. */
module UpdateLatch {

  datatype Latch = Latch(dhcp: bool, probe: bool, virtual: bool, disabled: bool)

  const LATCH_DISABLED := Latch(false, false, false, true)
  const BOOT_LATCH := Latch(false, false, false, false)

  /** What happened to the latch: armed by SendReplyWhenNetworkIsUpdated, with the flags that hold already;
      disabled by ResetState; offered flags by a status update. */
  datatype Note =
    | Armed(dhcp: bool, probe: bool, virtual: bool) | Disabled | Offered(dhcp: bool, probe: bool, virtual: bool)

  predicate Complete(l: Latch) {
    l == Latch(true, true, true, false)
  }

  function Offer(l: Latch, dhcp: bool, probe: bool, virtual: bool): Latch {
    Latch(l.dhcp || dhcp, l.probe || probe, l.virtual || virtual, l.disabled)
  }

  function Marked(l: Latch, n: Note): Latch {
    match n
    case Armed(d, p, v) => Latch(d, p, v, false)
    case Disabled => LATCH_DISABLED
    case Offered(d, p, v) => Offer(l, d, p, v)
  }

  /** What notes make of a latch. */
  function After(l: Latch, log: seq<Note>): Latch {
    if |log| == 0 then l else Marked(After(l, log[..|log| - 1]), log[|log| - 1])
  }

  /** What a log of notes since boot says the latch holds. */
  function Latched(log: seq<Note>): Latch {
    After(BOOT_LATCH, log)
  }

  /** The latch is complete after the last note. */
  predicate Due(log: seq<Note>) {
    Complete(Latched(log))
  }

  // ------------------------------------------------------------- what the latch means

  datatype Flag = Dhcp | Probe | Virtual

  /** The note brings the flag in. */
  predicate Brings(n: Note, f: Flag) {
    match f
    case Dhcp => !n.Disabled? && n.dhcp
    case Probe => !n.Disabled? && n.probe
    case Virtual => !n.Disabled? && n.virtual
  }

  predicate Holds(l: Latch, f: Flag) {
    match f
    case Dhcp => l.dhcp
    case Probe => l.probe
    case Virtual => l.virtual
  }

  predicate Marks(n: Note) {
    n.Armed? || n.Disabled?
  }

  /** Position of the last arming or disabling; 0 stands for boot and i + 1 for note i. */
  function LastMark(log: seq<Note>): (k: nat)
    ensures k <= |log|
    ensures k > 0 ==> Marks(log[k - 1])
    ensures forall j :: k <= j < |log| ==> !Marks(log[j])
  {
    if |log| == 0 then 0
    else if Marks(log[|log| - 1]) then |log|
    else LastMark(log[..|log| - 1])
  }

  /** Some note from position k on, counting the mark itself, brings the flag. */
  predicate Gathered(log: seq<Note>, k: nat, f: Flag) {
    exists j :: 0 <= j < |log| && k <= j + 1 && Brings(log[j], f)
  }

  /** The latch holds a flag exactly when it was brought in since boot, the last arming or the last reset,
      and is disabled exactly when the last of these was a reset. */
  lemma {:induction false} LatchMeans(log: seq<Note>, f: Flag)
    ensures Holds(Latched(log), f) <==> Gathered(log, LastMark(log), f)
    ensures Latched(log).disabled <==> LastMark(log) > 0 && log[LastMark(log) - 1].Disabled?
  {
    if |log| > 0 {
      var n := |log| - 1;
      var prev := log[..n];
      LatchMeans(prev, f);
      if !Marks(log[n]) {
        assert LastMark(log) == LastMark(prev);
        if Gathered(prev, LastMark(prev), f) {
          var j :| 0 <= j < |prev| && LastMark(prev) <= j + 1 && Brings(prev[j], f);
          assert Brings(log[j], f);
        }
        if Gathered(log, LastMark(log), f) && !Brings(log[n], f) {
          var j :| 0 <= j < |log| && LastMark(log) <= j + 1 && Brings(log[j], f);
          assert Brings(prev[j], f);
        }
      }
    }
  }

  /** The reply is earned: the latch was armed last, by boot or by SendReplyWhenNetworkIsUpdated, and not reset
      since, and all three flags came in since then, at the arming or later. */
  predicate Earned(log: seq<Note>) {
    && (LastMark(log) == 0 || log[LastMark(log) - 1].Armed?)
    && Gathered(log, LastMark(log), Dhcp) && Gathered(log, LastMark(log), Probe)
    && Gathered(log, LastMark(log), Virtual)
  }

  lemma DueIsEarned(log: seq<Note>)
    ensures Due(log) <==> Earned(log)
  {
    LatchMeans(log, Dhcp);
    LatchMeans(log, Probe);
    LatchMeans(log, Virtual);
  }
}
