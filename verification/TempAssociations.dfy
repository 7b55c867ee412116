/** Temporary associations (src/Bridge_temp_assoc.c): an allocator that gives each Z/IP client a
    virtual node id out of two small classes and, once a class is used up, recycles the oldest entry
    of that class that is not locked by a firmware update.

    An entry's static id is assigned once and never changes, so it stands for the address of the pool
    element; that no two entries share one is proved. */
module TempAssociations {

  const MAX_LR := 4
  const MAX_CLASSIC := 4
  const MAX_TEMP := MAX_LR + MAX_CLASSIC
  const FIRST_LR_ID := 4002

  predicate IsClassicNode(n: nat) { 0 < n <= 232 }
  predicate IsLrNode(n: nat) { 256 <= n <= 4000 }

  /** What identifies a Z/IP client to the bridge. */
  datatype Client = Client(ip: nat, port: nat, endpoint: nat, dtls: bool, longRange: bool)

  /** The packet held in the backup buffer. */
  datatype Packet = Packet(ip: nat, port: nat, endpoint: nat, dest: nat)

  datatype Config = Config(unsolicitedIp: nat, unsolicitedPort: nat, myNode: nat)

  datatype Entry = Entry(staticId: nat, virtualId: nat, client: Client)

  /** The entry held by a firmware update; the unsolicited destination's entry can be held too. */
  datatype Lock = Unlocked | OnEntry(staticId: nat) | OnUnsolicited

  /** classicIds are the virtual node ids loaded so far; the LR ids are always 4002 to 4005. */
  datatype State = State(
    table: seq<Entry>, inUse: nat, classicIds: seq<nat>, nextClassic: nat, nextLr: nat,
    lock: Lock, unsolicited: Entry)

  datatype Result = NoEntry | Unsolicited | InTable(entry: Entry)

  function ClientOf(p: Packet, dtls: bool): Client {
    Client(p.ip, p.port, p.endpoint, dtls, IsLrNode(p.dest))
  }

  predicate FromUnsolicited(p: Packet, cfg: Config) {
    p.ip == cfg.unsolicitedIp && p.port == cfg.unsolicitedPort
  }

  // --------------------------------------------------------------- specification

  /** Position of the client's entry; |table| when there is none. */
  function Find(table: seq<Entry>, c: Client): (i: nat)
    ensures i <= |table| && (i < |table| ==> table[i].client == c)
    ensures forall j :: 0 <= j < i ==> table[j].client != c
  {
    if table == [] || table[0].client == c then 0 else 1 + Find(table[1..], c)
  }

  predicate Recyclable(e: Entry, lock: Lock, longRange: bool) {
    lock != OnEntry(e.staticId) && e.client.longRange == longRange
  }

  /** Position of the oldest entry of a class that is not locked; |table| when there is none. */
  function Oldest(table: seq<Entry>, lock: Lock, longRange: bool): (i: nat)
    ensures i <= |table| && (i < |table| ==> Recyclable(table[i], lock, longRange))
    ensures forall j :: 0 <= j < i ==> !Recyclable(table[j], lock, longRange)
  {
    if table == [] || Recyclable(table[0], lock, longRange) then 0 else 1 + Oldest(table[1..], lock, longRange)
  }

  /** The class index is below its maximum. */
  predicate Available(s: State, p: Packet) {
    (IsLrNode(p.dest) && s.nextLr < MAX_LR) || (IsClassicNode(p.dest) && s.nextClassic < MAX_CLASSIC)
  }

  /** An id of the class is still to be handed out. */
  predicate IdLeft(s: State, p: Packet) {
    (IsLrNode(p.dest) && s.nextLr < MAX_LR) || (IsClassicNode(p.dest) && s.nextClassic < |s.classicIds|)
  }

  /** The id the next entry of the class gets; 0 when none is left. */
  function NextId(s: State, p: Packet): nat {
    if IsLrNode(p.dest) && s.nextLr < MAX_LR then FIRST_LR_ID + s.nextLr
    else if IsClassicNode(p.dest) && s.nextClassic < |s.classicIds| then s.classicIds[s.nextClassic]
    else 0
  }

  /** A pool element is taken and, when an id is left, the class index advances. */
  function Taken(s: State, p: Packet): State {
    var t := s.(inUse := s.inUse + 1);
    if !IdLeft(s, p) then t
    else if IsLrNode(p.dest) then t.(nextLr := s.nextLr + 1) else t.(nextClassic := s.nextClassic + 1)
  }

  function AddNew(s: State, p: Packet, c: Client): State {
    Taken(s, p).(table := s.table + [Entry(NextId(s, p), NextId(s, p), c)])
  }

  /** The recycled entry keeps its id and becomes the newest. */
  function Recycle(s: State, i: nat, c: Client): State
    requires i < |s.table|
  {
    var id := s.table[i].staticId;
    s.(table := s.table[..i] + s.table[i + 1..] + [Entry(id, id, c)])
  }

  /** A client without an entry: a new entry below the class maximum, a recycled one at it. */
  function Admit(s: State, p: Packet, c: Client): (State, Result) {
    if Available(s, p) then
      if !IdLeft(s, p) then (s, NoEntry)
      else (AddNew(s, p, c), InTable(Entry(NextId(s, p), NextId(s, p), c)))
    else
      var i := Oldest(s.table, s.lock, c.longRange);
      if i == |s.table| then (s, NoEntry)
      else (Recycle(s, i, c), InTable(Entry(s.table[i].staticId, s.table[i].staticId, c)))
  }

  function Create(s: State, p: Packet, dtls: bool, cfg: Config): (State, Result) {
    var c := ClientOf(p, dtls);
    if FromUnsolicited(p, cfg) then
      (s.(unsolicited := Entry(s.unsolicited.staticId, cfg.myNode, c.(longRange := s.unsolicited.client.longRange))),
       Unsolicited)
    else if Find(s.table, c) < |s.table| then
      (s, InTable(s.table[Find(s.table, c)]))
    else
      Admit(if s.table == [] then s.(lock := Unlocked) else s, p, c)
  }

  // ------------------------------------------------------------------ invariant

  function Count(table: seq<Entry>, longRange: bool): nat {
    if table == [] then 0 else
    Count(table[..|table| - 1], longRange) + if table[|table| - 1].client.longRange == longRange then 1 else 0
  }

  predicate GoodIds(ids: seq<nat>) {
    && |ids| <= MAX_CLASSIC
    && (forall i :: 0 <= i < |ids| ==> IsClassicNode(ids[i]))
    && (forall i, j :: 0 <= i < j < |ids| ==> ids[i] != ids[j])
  }

  ghost predicate GoodEntry(s: State, e: Entry) {
    && e.virtualId == e.staticId
    && if e.client.longRange then FIRST_LR_ID <= e.staticId < FIRST_LR_ID + s.nextLr
       else exists k :: 0 <= k < s.nextClassic <= |s.classicIds| && s.classicIds[k] == e.staticId
  }

  ghost predicate Inv(s: State) {
    && GoodIds(s.classicIds) && s.nextClassic <= |s.classicIds| && s.nextLr <= MAX_LR
    && Count(s.table, true) == s.nextLr && Count(s.table, false) == s.nextClassic
    && s.inUse == |s.table|
    && (forall i :: 0 <= i < |s.table| ==> GoodEntry(s, s.table[i]))
    && (forall i, j :: 0 <= i < j < |s.table| ==> s.table[i].staticId != s.table[j].staticId)
    && (forall i, j :: 0 <= i < j < |s.table| ==> s.table[i].client != s.table[j].client)
  }

  lemma {:induction false} CountsAddUp(table: seq<Entry>)
    ensures Count(table, true) + Count(table, false) == |table|
  {
    if table != [] {
      CountsAddUp(table[..|table| - 1]);
    }
  }

  /** Table length = classic index + LR index = pool entries in use, so whenever the code allocates, the
      pool has an element left. */
  lemma PoolNeverExhausted(s: State, p: Packet)
    requires Inv(s)
    ensures |s.table| == s.nextClassic + s.nextLr == s.inUse
    ensures Available(s, p) ==> s.inUse < MAX_TEMP
  {
    CountsAddUp(s.table);
  }

  /** Only an id that ran out is 0. */
  lemma NonzeroIds(s: State, p: Packet)
    requires GoodIds(s.classicIds) && forall i :: 0 <= i < |s.table| ==> GoodEntry(s, s.table[i])
    ensures NextId(s, p) != 0 <==> IdLeft(s, p)
    ensures forall i :: 0 <= i < |s.table| ==> s.table[i].staticId != 0
  {
    forall i | 0 <= i < |s.table| ensures s.table[i].staticId != 0 {
      assert GoodEntry(s, s.table[i]);
    }
  }

  lemma {:induction false} CountConcat(a: seq<Entry>, b: seq<Entry>, longRange: bool)
    ensures Count(a + b, longRange) == Count(a, longRange) + Count(b, longRange)
  {
    if b == [] {
      assert a + b == a;
    } else {
      assert (a + b)[..|a + b| - 1] == a + b[..|b| - 1];
      CountConcat(a, b[..|b| - 1], longRange);
    }
  }

  lemma AddNewKeeps(s: State, p: Packet, c: Client)
    requires Inv(s) && IdLeft(s, p) && c.longRange == IsLrNode(p.dest)
    requires forall j :: 0 <= j < |s.table| ==> s.table[j].client != c
    ensures Inv(AddNew(s, p, c))
  {
    var u := AddNew(s, p, c);
    assert u.table[..|u.table| - 1] == s.table;
    forall i | 0 <= i < |u.table| ensures GoodEntry(u, u.table[i]) {
      if i < |s.table| {
        assert GoodEntry(s, s.table[i]);
      }
    }
    forall i | 0 <= i < |s.table| ensures s.table[i].staticId != u.table[|s.table|].staticId {
      assert GoodEntry(s, s.table[i]);
    }
  }

  lemma RecycleCount(s: State, i: nat, c: Client, longRange: bool)
    requires i < |s.table| && c.longRange == s.table[i].client.longRange
    ensures Count(Recycle(s, i, c).table, longRange) == Count(s.table, longRange)
  {
    var front, mid, back := s.table[..i], [s.table[i]], s.table[i + 1..];
    var last := [Entry(s.table[i].staticId, s.table[i].staticId, c)];
    assert s.table == front + mid + back;
    CountConcat(front + mid, back, longRange);
    CountConcat(front, mid, longRange);
    CountConcat(front + back, last, longRange);
    CountConcat(front, back, longRange);
    assert mid[..0] == last[..0] == [];
  }

  /** Where the entries are after recycling position i. */
  lemma RecycledAt(s: State, i: nat, c: Client)
    requires i < |s.table|
    ensures var u := Recycle(s, i, c);
      && |u.table| == |s.table|
      && (forall j :: 0 <= j < i ==> u.table[j] == s.table[j])
      && (forall j :: i <= j < |s.table| - 1 ==> u.table[j] == s.table[j + 1])
      && u.table[|s.table| - 1] == Entry(s.table[i].staticId, s.table[i].staticId, c)
  {}

  lemma RecycleKeeps(s: State, i: nat, c: Client)
    requires Inv(s) && i < |s.table| && c.longRange == s.table[i].client.longRange
    requires forall j :: 0 <= j < |s.table| ==> s.table[j].client != c
    ensures Inv(Recycle(s, i, c))
  {
    var u := Recycle(s, i, c);
    RecycledAt(s, i, c);
    RecycleCount(s, i, c, true);
    RecycleCount(s, i, c, false);
    var n := |s.table| - 1;
    forall j | 0 <= j <= n ensures GoodEntry(u, u.table[j]) {
      assert GoodEntry(s, s.table[if j < i then j else if j < n then j + 1 else i]);
    }
    forall j, k | 0 <= j < k <= n
      ensures u.table[j].staticId != u.table[k].staticId && u.table[j].client != u.table[k].client
    {
      var j0, k0 := if j < i then j else j + 1, if k == n then i else if k < i then k else k + 1;
      assert j0 != k0 && u.table[j] == s.table[j0] && u.table[k].staticId == s.table[k0].staticId;
      assert s.table[j0].staticId != s.table[k0].staticId;
      assert k < n ==> u.table[k] == s.table[k0];
    }
  }

  /** Every creation keeps the invariant. */
  lemma CreateKeeps(s: State, p: Packet, dtls: bool, cfg: Config)
    requires Inv(s)
    ensures Inv(Create(s, p, dtls, cfg).0)
  {
    var c := ClientOf(p, dtls);
    var t := if s.table == [] then s.(lock := Unlocked) else s;
    if !FromUnsolicited(p, cfg) && Find(s.table, c) == |s.table| {
      if Available(t, p) {
        if IdLeft(t, p) { AddNewKeeps(t, p, c); }
      } else if Oldest(t.table, t.lock, c.longRange) < |t.table| {
        RecycleKeeps(t, Oldest(t.table, t.lock, c.longRange), c);
      }
    }
  }

  // ----------------------------------------------------------------- theorems

  datatype Step = Creation(p: Packet, dtls: bool, cfg: Config) | LockIt(lock: Lock) | LockTimeout

  function Apply(s: State, step: Step): State {
    match step
    case Creation(p, dtls, cfg) => Create(s, p, dtls, cfg).0
    case LockIt(lock) => s.(lock := lock)
    case LockTimeout => s.(lock := Unlocked)
  }

  function Run(s: State, steps: seq<Step>): State {
    if steps == [] then s else Apply(Run(s, steps[..|steps| - 1]), steps[|steps| - 1])
  }

  function Initial(ids: seq<nat>): State {
    State([], 0, ids, 0, 0, Unlocked, Entry(0, 0, Client(0, 0, 0, false, false)))
  }

  /** Taking and releasing the firmware lock leaves the table in order. */
  lemma LockKeeps(s: State, lock: Lock)
    requires Inv(s)
    ensures Inv(s.(lock := lock))
  {
    var t := s.(lock := lock);
    forall i | 0 <= i < |t.table| ensures GoodEntry(t, t.table[i]) {
      assert GoodEntry(s, s.table[i]);
    }
  }

  lemma StepKeeps(s: State, step: Step)
    requires Inv(s)
    ensures Inv(Apply(s, step)) && Apply(s, step).classicIds == s.classicIds
  {
    match step {
      case Creation(p, dtls, cfg) => CreateKeeps(s, p, dtls, cfg);
      case LockIt(lock) => LockKeeps(s, lock);
      case LockTimeout => LockKeeps(s, Unlocked);
    }
  }

  /** Over every run, whatever is locked and released in between. */
  lemma {:induction false} RunInvariant(ids: seq<nat>, steps: seq<Step>)
    requires GoodIds(ids)
    ensures Inv(Run(Initial(ids), steps)) && Run(Initial(ids), steps).classicIds == ids
  {
    if steps != [] {
      var s := Run(Initial(ids), steps[..|steps| - 1]);
      RunInvariant(ids, steps[..|steps| - 1]);
      StepKeeps(s, steps[|steps| - 1]);
    }
  }

  /** A creation that yields a table entry yields one for the client that asked. */
  lemma CreateServes(s: State, p: Packet, dtls: bool, cfg: Config)
    ensures var (t, r) := Create(s, p, dtls, cfg);
      r.InTable? ==> r.entry in t.table && r.entry.client == ClientOf(p, dtls) && !FromUnsolicited(p, cfg)
  {
    var (t, r) := Create(s, p, dtls, cfg);
    if r.InTable? && Find(s.table, ClientOf(p, dtls)) == |s.table| {
      assert t.table[|t.table| - 1] == r.entry;
    }
  }

  /** Two packets are from the same client to the bridge exactly if they agree in address, port, endpoint and use of
      DTLS and both or neither go to a Long Range node. */
  lemma SameClient(p: Packet, dtls: bool, q: Packet, qdtls: bool)
    ensures ClientOf(p, dtls) == ClientOf(q, qdtls) <==>
            && p.ip == q.ip && p.port == q.port && p.endpoint == q.endpoint && dtls == qdtls
            && (256 <= p.dest <= 4000 <==> 256 <= q.dest <= 4000)
  {}

  /** The unsolicited destination, known by address and port, has the gateway's own id and an entry of its own
      outside the table. */
  lemma UnsolicitedIsApart(s: State, p: Packet, dtls: bool, cfg: Config)
    ensures var (t, r) := Create(s, p, dtls, cfg);
            && (r.Unsolicited? <==> p.ip == cfg.unsolicitedIp && p.port == cfg.unsolicitedPort)
            && (r.Unsolicited? ==>
                && t == s.(unsolicited := t.unsolicited) && t.unsolicited.virtualId == cfg.myNode
                && t.unsolicited.staticId == s.unsolicited.staticId
                && t.unsolicited.client == Client(p.ip, p.port, p.endpoint, dtls, s.unsolicited.client.longRange))
            && (!r.Unsolicited? ==> t.unsolicited == s.unsolicited)
  {}

  /** An entry's id is of the destination's class: one of the four Long Range ids or a classic id loaded. */
  lemma IdFitsDestination(s: State, p: Packet, dtls: bool, cfg: Config)
    requires Inv(s)
    ensures var r := Create(s, p, dtls, cfg).1;
            r.InTable? ==> if 256 <= p.dest <= 4000 then 4002 <= r.entry.virtualId <= 4005
                           else r.entry.virtualId in s.classicIds && 0 < r.entry.virtualId <= 232
  {
    var (t, r) := Create(s, p, dtls, cfg);
    CreateKeeps(s, p, dtls, cfg);
    StepKeeps(s, Creation(p, dtls, cfg));
    CreateServes(s, p, dtls, cfg);
    if r.InTable? {
      var k :| 0 <= k < |t.table| && t.table[k] == r.entry;
      assert GoodEntry(t, t.table[k]);
    }
  }

  lemma FoundAgain(t: State, k: nat, p: Packet, dtls: bool, cfg: Config)
    requires k < |t.table| && t.table[k].client == ClientOf(p, dtls) && !FromUnsolicited(p, cfg)
    requires forall i, j :: 0 <= i < j < |t.table| ==> t.table[i].client != t.table[j].client
    ensures Create(t, p, dtls, cfg) == (t, InTable(t.table[k]))
  {
    var i := Find(t.table, ClientOf(p, dtls));
    assert i <= k;
    assert t.table[i].client == t.table[k].client;
  }

  /** The client asked for is served by the entry returned, and a repeated creation returns the same
      entry and leaves the state as it is. */
  lemma CreateIsIdempotent(s: State, p: Packet, dtls: bool, cfg: Config)
    requires Inv(s)
    ensures var (t, r) := Create(s, p, dtls, cfg);
      r.InTable? ==>
        && r.entry in t.table && r.entry.client == ClientOf(p, dtls)
        && Create(t, p, dtls, cfg) == (t, r)
  {
    var (t, r) := Create(s, p, dtls, cfg);
    if r.InTable? {
      CreateKeeps(s, p, dtls, cfg);
      CreateServes(s, p, dtls, cfg);
      var k :| 0 <= k < |t.table| && t.table[k] == r.entry;
      FoundAgain(t, k, p, dtls, cfg);
    }
  }

  /** temp_assoc_lookup_by_virtual_nodeid as a search in table order. */
  function LookupByVirtualId(table: seq<Entry>, id: nat): Result {
    if table == [] then NoEntry
    else if table[0].virtualId == id then InTable(table[0])
    else LookupByVirtualId(table[1..], id)
  }

  lemma {:induction false} LookupFindsOnly(table: seq<Entry>, k: nat)
    requires k < |table|
    requires forall i, j :: 0 <= i < j < |table| ==> table[i].virtualId != table[j].virtualId
    ensures LookupByVirtualId(table, table[k].virtualId) == InTable(table[k])
  {
    if k > 0 {
      assert table[0].virtualId != table[k].virtualId;
      assert table[1..][k - 1] == table[k];
      LookupFindsOnly(table[1..], k - 1);
    }
  }

  /** Clients and virtual ids correspond one to one: each entry is what its id looks up. */
  lemma OneToOne(s: State, i: nat, j: nat)
    requires Inv(s) && i < |s.table| && j < |s.table|
    ensures s.table[i].client == s.table[j].client <==> i == j
    ensures s.table[i].virtualId == s.table[j].virtualId <==> i == j
    ensures LookupByVirtualId(s.table, s.table[i].virtualId) == InTable(s.table[i])
  {
    forall k | 0 <= k < |s.table| ensures s.table[k].virtualId == s.table[k].staticId {
      assert GoodEntry(s, s.table[k]);
    }
    LookupFindsOnly(s.table, i);
  }

  /** A locked entry survives every creation unchanged and still locked. */
  lemma LockedSurvives(s: State, p: Packet, dtls: bool, cfg: Config, k: nat)
    requires k < |s.table| && s.lock == OnEntry(s.table[k].staticId)
    ensures s.table[k] in Create(s, p, dtls, cfg).0.table && Create(s, p, dtls, cfg).0.lock == s.lock
  {
    var c := ClientOf(p, dtls);
    if !FromUnsolicited(p, cfg) && Find(s.table, c) == |s.table| {
      var i := Oldest(s.table, s.lock, c.longRange);
      if Available(s, p) {
        if IdLeft(s, p) { assert AddNew(s, p, c).table[k] == s.table[k]; }
      } else if i < |s.table| {
        RecycledAt(s, i, c);
        assert Recycle(s, i, c).table[if k < i then k else k - 1] == s.table[k];
      }
    }
  }

  predicate OnlyCreations(steps: seq<Step>) {
    forall i :: 0 <= i < |steps| ==> steps[i].Creation?
  }

  /** As long as the lock is held, the entry survives every run of creations. */
  lemma {:induction false} LockedSurvivesRun(s: State, steps: seq<Step>, k: nat)
    requires k < |s.table| && s.lock == OnEntry(s.table[k].staticId) && OnlyCreations(steps)
    ensures s.table[k] in Run(s, steps).table && Run(s, steps).lock == s.lock
  {
    if steps != [] {
      var front, last := steps[..|steps| - 1], steps[|steps| - 1];
      LockedSurvivesRun(s, front, k);
      var t := Run(s, front);
      var j :| 0 <= j < |t.table| && t.table[j] == s.table[k];
      LockedSurvives(t, last.p, last.dtls, last.cfg, j);
    }
  }

  lemma {:induction false} TwoOfAClass(table: seq<Entry>, longRange: bool) returns (i: nat, j: nat)
    requires Count(table, longRange) >= 2
    ensures i < j < |table| && table[i].client.longRange == longRange == table[j].client.longRange
  {
    var front := table[..|table| - 1];
    if Count(front, longRange) >= 2 {
      i, j := TwoOfAClass(front, longRange);
    } else {
      j := |table| - 1;
      i := OneOfAClass(front, longRange);
    }
  }

  lemma {:induction false} OneOfAClass(table: seq<Entry>, longRange: bool) returns (i: nat)
    requires Count(table, longRange) >= 1
    ensures i < |table| && table[i].client.longRange == longRange
  {
    if table[|table| - 1].client.longRange == longRange {
      i := |table| - 1;
    } else {
      i := OneOfAClass(table[..|table| - 1], longRange);
    }
  }

  /** Exactly when a client of a valid destination is left without an entry: it is new, and the classic
      ids loaded, fewer than four, have all been handed out. The code then neither allocates nor
      recycles. With four ids loaded, or towards an LR node, this never happens. */
  lemma CreateFailsExactly(s: State, p: Packet, dtls: bool, cfg: Config)
    requires Inv(s) && (IsClassicNode(p.dest) || IsLrNode(p.dest))
    ensures Create(s, p, dtls, cfg).1 == NoEntry <==>
      && !FromUnsolicited(p, cfg)
      && Find(s.table, ClientOf(p, dtls)) == |s.table|
      && IsClassicNode(p.dest) && s.nextClassic == |s.classicIds| < MAX_CLASSIC
  {
    var c := ClientOf(p, dtls);
    if !FromUnsolicited(p, cfg) && Find(s.table, c) == |s.table| && !Available(s, p) {
      var i, j := TwoOfAClass(s.table, c.longRange);
      assert Recyclable(s.table[i], s.lock, c.longRange) || Recyclable(s.table[j], s.lock, c.longRange);
    }
  }

  // ------------------------------------------------------------------- the code

  class TempTable {
    var table: seq<Entry>
    var inUse: nat
    var classicIds: seq<nat>
    var nextClassic: nat
    var nextLr: nat
    var lock: Lock
    var unsolicited: Entry

    function View(): State
      reads this
    {
      State(table, inUse, classicIds, nextClassic, nextLr, lock, unsolicited)
    }

    constructor (ids: seq<nat>)
      ensures View() == Initial(ids)
    {
      table, inUse, classicIds, nextClassic, nextLr := [], 0, ids, 0, 0;
      lock, unsolicited := Unlocked, Entry(0, 0, Client(0, 0, 0, false, false));
    }

    method RegisterLock(l: Lock)
      modifies this`lock
      ensures View() == Apply(old(View()), LockIt(l))
    {
      lock := l;
    }

    method ReleaseLock()
      modifies this`lock
      ensures View() == Apply(old(View()), LockTimeout)
    {
      lock := Unlocked;
    }

    method LookupByClient(p: Packet, dtls: bool, cfg: Config) returns (r: Result)
      modifies this`unsolicited
      ensures FromUnsolicited(p, cfg) ==> r == Unsolicited && (View(), r) == Create(old(View()), p, dtls, cfg)
      ensures !FromUnsolicited(p, cfg) ==>
        && unsolicited == old(unsolicited)
        && var i := Find(table, ClientOf(p, dtls));
           r == if i < |table| then InTable(table[i]) else NoEntry
    {
      if p.ip == cfg.unsolicitedIp && p.port == cfg.unsolicitedPort {
        unsolicited := unsolicited.(
          client := Client(cfg.unsolicitedIp, cfg.unsolicitedPort, p.endpoint, dtls, unsolicited.client.longRange),
          virtualId := cfg.myNode);
        return Unsolicited;
      }
      var i := 0;
      while i < |table|
        invariant 0 <= i <= |table| && forall j :: 0 <= j < i ==> table[j].client != ClientOf(p, dtls)
      {
        if table[i].client == ClientOf(p, dtls) {
          return InTable(table[i]);
        }
        i := i + 1;
      }
      r := NoEntry;
    }

    /** A pool element for a new client: a fresh one with the next id of the class, its id 0 when the ids
        loaded have run out, or else the oldest unlocked one of the class, taken out of the table. */
    method GetNewOrReuseOldest(p: Packet) returns (r: Result)
      requires Available(View(), p) ==> inUse < MAX_TEMP
      modifies this
      ensures
        var t := if old(table) == [] then old(View()).(lock := Unlocked) else old(View());
        if Available(t, p) then
          View() == Taken(t, p) && r.InTable? && r.entry.staticId == NextId(t, p)
        else
          var i := Oldest(t.table, t.lock, IsLrNode(p.dest));
          if i == |t.table| then r == NoEntry && View() == t
          else r == InTable(t.table[i]) && View() == t.(table := t.table[..i] + t.table[i + 1..])
    {
      if |table| == 0 {
        lock := Unlocked;
      }
      var lr := IsLrNode(p.dest);
      if Available(View(), p) {
        assert inUse < MAX_TEMP;
        inUse := inUse + 1;
        var e := Entry(0, 0, Client(0, 0, 0, false, false));
        if nextLr < MAX_LR && lr {
          e := Entry(FIRST_LR_ID + nextLr, 0, e.client.(longRange := true));
          nextLr := nextLr + 1;
        } else if nextClassic < |classicIds| && IsClassicNode(p.dest) {
          e := Entry(classicIds[nextClassic], 0, e.client);
          nextClassic := nextClassic + 1;
        }
        return InTable(e);
      }
      var i := 0;
      while i < |table|
        invariant 0 <= i <= |table| && table == old(table)
        invariant forall j :: 0 <= j < i ==> !Recyclable(table[j], lock, lr)
      {
        if lock != OnEntry(table[i].staticId) && table[i].client.longRange == lr {
          r := InTable(table[i]);
          table := table[..i] + table[i + 1..];
          return;
        }
        i := i + 1;
      }
      r := NoEntry;
    }

    /** list_add, guarded by a search for an entry equal in everything but the current id; an equal one
        sends the new element back to the pool. */
    method AddToTable(e: Entry)
      requires inUse > 0
      modifies this`table, this`inUse
      ensures if exists x :: x in old(table) && x.staticId == e.staticId && x.client == e.client
        then table == old(table) && inUse == old(inUse) - 1
        else table == old(table) + [e] && inUse == old(inUse)
    {
      var i := 0;
      while i < |table|
        invariant 0 <= i <= |table| && table == old(table) && inUse == old(inUse)
        invariant forall j :: 0 <= j < i ==> table[j].staticId != e.staticId || table[j].client != e.client
      {
        if table[i].staticId == e.staticId && table[i].client == e.client {
          inUse := inUse - 1;
          return;
        }
        i := i + 1;
      }
      table := table + [e];
    }

    /** Fills in the client and the current id and registers the entry; an entry without an id goes back
        to the pool. A client that is not in the table yet never meets the duplicate search. */
    method SetupAndSave(e: Entry, p: Packet, dtls: bool, cfg: Config) returns (r: Result)
      requires inUse > 0 && !FromUnsolicited(p, cfg)
      requires forall j :: 0 <= j < |table| ==> table[j].client != ClientOf(p, dtls)
      modifies this`table, this`inUse
      ensures var f := Entry(e.staticId, e.staticId, ClientOf(p, dtls));
        if e.staticId != 0 then r == InTable(f) && table == old(table) + [f] && inUse == old(inUse)
        else r == NoEntry && table == old(table) && inUse == old(inUse) - 1
    {
      var id := if p.ip == cfg.unsolicitedIp && p.port == cfg.unsolicitedPort then cfg.myNode else e.staticId;
      var f := Entry(e.staticId, id, ClientOf(p, dtls));
      if id == 0 {
        inUse := inUse - 1;
        return NoEntry;
      }
      AddToTable(f);
      r := InTable(f);
    }

    /** The part of temp_assoc_create that serves a new client. */
    method AdmitClient(p: Packet, dtls: bool, cfg: Config) returns (r: Result)
      requires !FromUnsolicited(p, cfg)
      requires forall j :: 0 <= j < |table| ==> table[j].client != ClientOf(p, dtls) && table[j].staticId != 0
      requires inUse == |table| && (NextId(View(), p) != 0 <==> IdLeft(View(), p))
      requires Available(View(), p) ==> inUse < MAX_TEMP
      modifies this
      ensures var s := if old(table) == [] then old(View()).(lock := Unlocked) else old(View());
              (View(), r) == Admit(s, p, ClientOf(p, dtls))
    {
      ghost var t := if table == [] then View().(lock := Unlocked) else View();
      r := GetNewOrReuseOldest(p);
      if r != NoEntry {
        assert forall j :: 0 <= j < |table| ==> table[j] in t.table;
        r := SetupAndSave(r.entry, p, dtls, cfg);
      }
    }

    /** temp_assoc_create; while another association is being created it refuses. */
    method CreateTemp(p: Packet, dtls: bool, cfg: Config, inProgress: bool) returns (r: Result)
      requires Inv(View())
      modifies this
      ensures Inv(View())
      ensures inProgress ==> r == NoEntry && View() == old(View())
      ensures !inProgress ==> (View(), r) == Create(old(View()), p, dtls, cfg)
    {
      if inProgress {
        return NoEntry;
      }
      CreateKeeps(View(), p, dtls, cfg);
      r := LookupByClient(p, dtls, cfg);
      if r == NoEntry {
        NonzeroIds(View(), p);
        PoolNeverExhausted(View(), p);
        r := AdmitClient(p, dtls, cfg);
      }
    }

    method LookupByVirtualNodeId(id: nat) returns (r: Result)
      ensures r == LookupByVirtualId(table, id)
    {
      var i := 0;
      while i < |table|
        invariant 0 <= i <= |table|
        invariant LookupByVirtualId(table, id) == LookupByVirtualId(table[i..], id)
      {
        if table[i].virtualId == id {
          return InTable(table[i]);
        }
        i := i + 1;
      }
      r := NoEntry;
    }
  }
}
