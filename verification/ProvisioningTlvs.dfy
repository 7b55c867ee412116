/** The type-length-value section of provisioning list reports and set commands
    (src/CC_provisioning_list.c): printing an entry's data, parsing a set command's, and storing what was
    parsed. */
module ProvisioningTlvs {
  import opened Basics

  const PRODUCT_TYPE: nat := 0
  const PRODUCT_ID: nat := 1
  const MAX_INCLUSION: nat := 2
  const UUID16: nat := 3
  const NAME: nat := 0x32
  const LOCATION: nat := 0x33
  const STATUS: nat := 0x34
  const ADV_JOIN: nat := 0x35
  const BOOT_MODE: nat := 0x36
  const NETWORK_INFO: nat := 0x37

  datatype Tlv = Tlv(kind: nat, value: seq<byte>)

  datatype Entry = Entry(bootMode: byte, status: byte, tlvs: seq<Tlv>)

  /** The kinds an entry can hold, with the lengths the set command can have stored. Status, boot mode and
      network information are not stored as TLVs. */
  predicate Storable(t: Tlv) {
    && 0 < |t.value| < 256
    && (match t.kind
        case 0 => |t.value| >= 4
        case 1 => |t.value| >= 8
        case 2 => |t.value| == 1
        case 3 => |t.value| == 17
        case 0x32 => true
        case 0x33 => true
        case 0x35 => |t.value| == 1
        case _ => false)
  }

  predicate ValidTlvs(ts: seq<Tlv>) {
    && (forall i :: 0 <= i < |ts| ==> Storable(ts[i]))
    && (forall i, j :: 0 <= i < j < |ts| ==> ts[i].kind != ts[j].kind)
  }

  // ------------------------------------------------------------------ printing

  /** The type byte: only the advanced joining keys are sent as critical. */
  function TypeByte(kind: nat): nat {
    2 * kind + (if kind == ADV_JOIN then 1 else 0)
  }

  function PrintTlv(t: Tlv): (r: seq<byte>)
    requires Storable(t)
    ensures |r| == 2 + |t.value|
    ensures r[0] as nat / 2 == t.kind && (r[0] % 2 == 1 <==> t.kind == 0x35)
  {
    [TypeByte(t.kind) as byte, |t.value| as byte] + t.value
  }

  function PrintAll(ts: seq<Tlv>): seq<byte>
    requires forall i :: 0 <= i < |ts| ==> Storable(ts[i])
  {
    if |ts| == 0 then [] else PrintTlv(ts[0]) + PrintAll(ts[1..])
  }

  function Head(e: Entry, net: seq<byte>): (r: seq<byte>)
    requires |net| == 4
    ensures |r| == 12
  {
    [0x6D, 1, e.bootMode, 0x69, 1, e.status, 0x6E, 4] + net
  }

  function Section(e: Entry, net: seq<byte>): seq<byte>
    requires |net| == 4 && ValidTlvs(e.tlvs)
  {
    Head(e, net) + PrintAll(e.tlvs)
  }

  lemma {:induction false} PrintAllAppend(a: seq<Tlv>, b: seq<Tlv>)
    requires forall i :: 0 <= i < |a| ==> Storable(a[i])
    requires forall i :: 0 <= i < |b| ==> Storable(b[i])
    ensures PrintAll(a + b) == PrintAll(a) + PrintAll(b)
  {
    if |a| == 0 {
      assert a + b == b;
    } else {
      PrintAllAppend(a[1..], b);
      assert (a + b)[1..] == a[1..] + b && (a + b)[0] == a[0];
      var head, front, back := PrintTlv(a[0]), PrintAll(a[1..]), PrintAll(b);
      assert head + (front + back) == (head + front) + back;
    }
  }

  lemma PrintedUpTo(ts: seq<Tlv>, i: nat)
    requires forall j :: 0 <= j < |ts| ==> Storable(ts[j])
    requires i < |ts|
    ensures PrintAll(ts[..i + 1]) == PrintAll(ts[..i]) + PrintTlv(ts[i])
    ensures |PrintAll(ts[..i + 1])| <= |PrintAll(ts)|
  {
    assert ts[..i + 1] == ts[..i] + [ts[i]];
    PrintAllAppend(ts[..i], [ts[i]]);
    assert [ts[i]][1..] == [];
    assert ts == ts[..i + 1] + ts[i + 1..];
    PrintAllAppend(ts[..i + 1], ts[i + 1..]);
  }

  /** Writes one option through the report pointer. */
  method PutTlv(buf: array<byte>, at: nat, t: Tlv) returns (pt: nat)
    requires Storable(t) && at + 2 + |t.value| <= buf.Length
    modifies buf
    ensures pt == at + |PrintTlv(t)|
    ensures forall j :: 0 <= j < |PrintTlv(t)| ==> buf[at + j] == PrintTlv(t)[j]
    ensures forall j :: 0 <= j < buf.Length && !(at <= j < pt) ==> buf[j] == old(buf[j])
  {
    pt := at;
    buf[pt] := TypeByte(t.kind) as byte;
    pt := pt + 1;
    buf[pt] := |t.value| as byte;
    pt := pt + 1;
    forall j | 0 <= j < |t.value| {
      buf[pt + j] := t.value[j];
    }
    pt := pt + |t.value|;
  }

  /** CC_provisioning_list_add_tlvs, for the options stored with the entry. */
  method PutTlvs(buf: array<byte>, at: nat, ts: seq<Tlv>) returns (pt: nat)
    requires forall j :: 0 <= j < |ts| ==> Storable(ts[j])
    requires at + |PrintAll(ts)| <= buf.Length
    modifies buf
    ensures pt == at + |PrintAll(ts)|
    ensures forall j :: 0 <= j < |PrintAll(ts)| ==> buf[at + j] == PrintAll(ts)[j]
    ensures forall j :: 0 <= j < buf.Length && !(at <= j < pt) ==> buf[j] == old(buf[j])
  {
    pt := at;
    var i := 0;
    ghost var done: seq<byte> := [];
    while i < |ts|
      invariant 0 <= i <= |ts| && done == PrintAll(ts[..i])
      invariant pt == at + |done| <= at + |PrintAll(ts)|
      invariant forall j :: 0 <= j < |done| ==> buf[at + j] == done[j]
      invariant forall j :: 0 <= j < buf.Length && !(at <= j < pt) ==> buf[j] == old(buf[j])
    {
      PrintedUpTo(ts, i);
      ghost var more := PrintTlv(ts[i]);
      ghost var was := pt;
      pt := PutTlv(buf, pt, ts[i]);
      forall j | 0 <= j < |done + more| ensures buf[at + j] == (done + more)[j] {
        if j >= |done| {
          assert buf[was + (j - |done|)] == more[j - |done|];
        }
      }
      done := done + more;
      i := i + 1;
    }
    assert ts[..|ts|] == ts;
  }

  // ------------------------------------------------------------------ parsing

  datatype Reading = Reject | Ignore | Keep(value: seq<byte>)

  datatype Result = Error | Found(values: map<nat, seq<byte>>)

  /** What one option contributes. A boot mode is taken from the byte after the length even if the length
      is 0; the byte is then the next option's type. */
  function Read(d: seq<byte>, at: nat): (r: Reading)
    requires at + 2 < |d| && at + 2 + d[at + 1] as nat <= |d|
    ensures r.Keep? ==> forall b :: b in r.value ==> b in d[at + 2..]
  {
    var kind, len := d[at] as nat / 2, d[at + 1] as nat;
    var value := d[at + 2..at + 2 + len];
    if kind == NAME || kind == LOCATION then Keep(value)
    else if kind == BOOT_MODE then Keep([d[at + 2]])
    else if kind == PRODUCT_TYPE then (if len < 4 then Reject else Keep(value))
    else if kind == PRODUCT_ID then (if len < 8 then Reject else Keep(value))
    else if kind == STATUS || kind == ADV_JOIN || kind == MAX_INCLUSION then
      (if len < 1 then Reject else Keep([d[at + 2]]))
    else if kind == UUID16 then (if len < 17 then Reject else Keep(value[..17]))
    else if kind == NETWORK_INFO then Ignore
    else if d[at] % 2 == 1 then Reject else Ignore
  }

  function Note(r: Reading, kind: nat, found: map<nat, seq<byte>>): map<nat, seq<byte>> {
    if r.Keep? then found[kind := r.value] else found
  }

  function ParseFrom(d: seq<byte>, at: nat, found: map<nat, seq<byte>>): Result
    requires at <= |d|
    decreases |d| - at
  {
    if at + 2 >= |d| || |d| < at + 2 + d[at + 1] as nat then Found(found)
    else if Read(d, at).Reject? then Error
    else ParseFrom(d, at + 2 + d[at + 1] as nat, Note(Read(d, at), d[at] as nat / 2, found))
  }

  /** The option loop of the set command. Every access is inside the frame, and the loop ends. */
  method Parse(d: seq<byte>, start: nat) returns (r: Result)
    requires start <= |d|
    ensures r == ParseFrom(d, start, map[])
  {
    var at := start;
    var found: map<nat, seq<byte>> := map[];
    while at + 2 < |d|
      invariant start <= at <= |d|
      invariant ParseFrom(d, start, map[]) == ParseFrom(d, at, found)
      decreases |d| - at
    {
      var len := d[at + 1] as nat;
      if |d| < at + 2 + len {
        break;
      }
      var reading := Read(d, at);
      if reading.Reject? {
        return Error;
      }
      found := Note(reading, d[at] as nat / 2, found);
      at := at + 2 + len;
    }
    return Found(found);
  }

  // ------------------------------------------------------------------ what a frame says

  /** Where the options of a frame start, one behind the other as long as they lie inside the frame. */
  function Starts(d: seq<byte>, at: nat): (r: seq<nat>)
    requires at <= |d|
    ensures forall q :: q in r ==> at <= q && q + 2 < |d| && q + 2 + d[q + 1] as nat <= |d|
    decreases |d| - at
  {
    if at + 2 >= |d| || |d| < at + 2 + d[at + 1] as nat then []
    else [at] + Starts(d, at + 2 + d[at + 1] as nat)
  }

  /** The kinds the set command stores, with the least length of each, and the network information. */
  predicate Known(kind: nat) {
    kind <= 3 || 0x32 <= kind <= 0x37
  }

  function LeastLength(kind: nat): nat {
    if kind == 0 then 4 else if kind == 1 then 8 else if kind == 3 then 17
    else if kind == 2 || kind == 0x34 || kind == 0x35 then 1 else 0
  }

  /** An option that spoils the command: one that is too short, or an unknown one that is critical. */
  predicate Spoils(d: seq<byte>, at: nat)
    requires at + 1 < |d|
  {
    var kind := d[at] as nat / 2;
    if Known(kind) then (d[at + 1] as nat) < LeastLength(kind) else d[at] % 2 == 1
  }

  lemma ReadMeans(d: seq<byte>, at: nat)
    requires at + 2 < |d| && at + 2 + d[at + 1] as nat <= |d|
    ensures var kind, len := d[at] as nat / 2, d[at + 1] as nat;
            && (Read(d, at).Reject? <==> Spoils(d, at))
            && (Read(d, at).Keep? <==> !Spoils(d, at) && Known(kind) && kind != 0x37)
            && (Read(d, at).Keep? ==>
                var v := Read(d, at).value;
                && v <= d[at + 2..]
                && |v| == if kind == 3 then 17 else if kind in {0, 1, 0x32, 0x33} then len else 1)
  {}

  predicate AnySpoils(d: seq<byte>, all: seq<nat>)
    requires forall q :: q in all ==> q + 1 < |d|
  {
    exists q :: q in all && Spoils(d, q)
  }

  lemma SpoiltSplit(d: seq<byte>, at: nat, rest: seq<nat>)
    requires forall q :: q in [at] + rest ==> q + 1 < |d|
    requires forall q :: q in rest ==> q + 1 < |d|
    ensures at + 1 < |d|
    ensures AnySpoils(d, [at] + rest) <==> Spoils(d, at) || AnySpoils(d, rest)
  {
    assert at in [at] + rest && forall q :: q in rest ==> q in [at] + rest;
  }

  /** The command is rejected exactly if some option of the frame spoils it. */
  lemma {:induction false} ParseErrorExactly(d: seq<byte>, at: nat, found: map<nat, seq<byte>>)
    requires at <= |d|
    ensures ParseFrom(d, at, found).Error? <==> AnySpoils(d, Starts(d, at))
    decreases |d| - at
  {
    if at + 2 < |d| && at + 2 + d[at + 1] as nat <= |d| {
      var next := at + 2 + d[at + 1] as nat;
      ReadMeans(d, at);
      SpoiltSplit(d, at, Starts(d, next));
      if !Spoils(d, at) {
        ParseErrorExactly(d, next, Note(Read(d, at), d[at] as nat / 2, found));
      }
    }
  }

  function KindAt(d: seq<byte>, at: nat): nat
    requires at < |d|
  {
    d[at] as nat / 2
  }

  /** Where the last option of a kind starts. */
  function LastOf(d: seq<byte>, at: nat, kind: nat): (r: Option<nat>)
    requires at <= |d|
    ensures r.Some? ==> r.value in Starts(d, at) && KindAt(d, r.value) == kind
    ensures forall q :: q in Starts(d, at) && KindAt(d, q) == kind ==> r.Some? && q <= r.value
    decreases |d| - at
  {
    if at + 2 >= |d| || |d| < at + 2 + d[at + 1] as nat then None
    else
      var later := LastOf(d, at + 2 + d[at + 1] as nat, kind);
      if later.Some? then later else if KindAt(d, at) == kind then Some(at) else None
  }

  /** Otherwise it holds a value for exactly the kinds of its options that can be stored, network information not
      among them: what the last option of the kind reads. */
  lemma {:induction false} ParsedLast(d: seq<byte>, at: nat, found: map<nat, seq<byte>>, kind: nat)
    requires at <= |d| && ParseFrom(d, at, found).Found?
    ensures var values, last := ParseFrom(d, at, found).values, LastOf(d, at, kind);
            if Known(kind) && kind != 0x37 && last.Some? then
              kind in values && Read(d, last.value) == Keep(values[kind])
            else
              (kind in values <==> kind in found) && (kind in found ==> values[kind] == found[kind])
    decreases |d| - at
  {
    if at + 2 < |d| && at + 2 + d[at + 1] as nat <= |d| {
      ReadMeans(d, at);
      ParsedLast(d, at + 2 + d[at + 1] as nat, Note(Read(d, at), KindAt(d, at), found), kind);
    }
  }

  // ------------------------------------------------------------------ round trip

  function Enter(found: map<nat, seq<byte>>, ts: seq<Tlv>): map<nat, seq<byte>>
    decreases |ts|
  {
    if |ts| == 0 then found else Enter(found[ts[0].kind := ts[0].value], ts[1..])
  }

  /** The option stands at this place of the frame. */
  predicate Stands(d: seq<byte>, at: nat, t: Tlv) {
    && at + 2 + |t.value| <= |d|
    && d[at] as nat == TypeByte(t.kind) && d[at + 1] as nat == |t.value|
    && forall i :: 0 <= i < |t.value| ==> d[at + 2 + i] == t.value[i]
  }

  /** The options stand one after the other from this place to the end of the frame. */
  predicate Follow(d: seq<byte>, at: nat, ts: seq<Tlv>)
    decreases |ts|
  {
    if |ts| == 0 then at == |d|
    else Stands(d, at, ts[0]) && Follow(d, at + 2 + |ts[0].value|, ts[1..])
  }

  lemma HeadStands(d: seq<byte>, at: nat, t: Tlv, more: seq<byte>)
    requires Storable(t) && at <= |d| && d[at..] == PrintTlv(t) + more
    ensures Stands(d, at, t) && d[at + 2 + |t.value|..] == more
  {
    var rest, n := d[at..], 2 + |t.value|;
    assert rest[..n] == PrintTlv(t) && rest[n..] == more;
    assert d[at] == rest[0] && d[at + 1] == rest[1];
    forall i | 0 <= i < |t.value| ensures d[at + 2 + i] == t.value[i] {
      assert d[at + 2 + i] == rest[2 + i];
    }
    assert d[at + n..] == rest[n..];
  }

  lemma {:induction false} PrintedFollow(d: seq<byte>, at: nat, ts: seq<Tlv>)
    requires forall i :: 0 <= i < |ts| ==> Storable(ts[i])
    requires at <= |d| && d[at..] == PrintAll(ts)
    ensures Follow(d, at, ts)
    decreases |ts|
  {
    if |ts| > 0 {
      HeadStands(d, at, ts[0], PrintAll(ts[1..]));
      PrintedFollow(d, at + 2 + |ts[0].value|, ts[1..]);
    }
  }

  lemma ReadPrinted(d: seq<byte>, at: nat, t: Tlv)
    requires Storable(t) && Stands(d, at, t)
    ensures d[at] as nat / 2 == t.kind && Read(d, at) == Keep(t.value)
  {
    assert d[at + 2..at + 2 + |t.value|] == t.value;
    assert |t.value| == 1 ==> [d[at + 2]] == t.value;
  }

  lemma {:induction false} ParsePrinted(d: seq<byte>, at: nat, ts: seq<Tlv>, found: map<nat, seq<byte>>)
    requires forall i :: 0 <= i < |ts| ==> Storable(ts[i])
    requires at <= |d| && Follow(d, at, ts)
    ensures ParseFrom(d, at, found) == Found(Enter(found, ts))
    decreases |ts|
  {
    if |ts| > 0 {
      var t := ts[0];
      assert Storable(t);
      ReadPrinted(d, at, t);
      ParsePrinted(d, at + 2 + |t.value|, ts[1..], found[t.kind := t.value]);
    }
  }

  lemma HeadParsed(d: seq<byte>, at: nat, e: Entry, net: seq<byte>)
    requires |net| == 4 && at + 12 <= |d| && d[at..at + 12] == Head(e, net)
    ensures ParseFrom(d, at, map[]) ==
            ParseFrom(d, at + 12, map[BOOT_MODE := [e.bootMode], STATUS := [e.status]])
  {
    var p := d[at..at + 12];
    assert d[at] == p[0] && d[at + 1] == p[1] && d[at + 2] == p[2];
    assert d[at + 3] == p[3] && d[at + 4] == p[4] && d[at + 5] == p[5];
    assert d[at + 6] == p[6] && d[at + 7] == p[7];
    var m1: map<nat, seq<byte>> := map[BOOT_MODE := [e.bootMode]];
    var m2 := m1[STATUS := [e.status]];
    assert ParseFrom(d, at, map[]) == ParseFrom(d, at + 3, m1);
    assert ParseFrom(d, at + 3, m1) == ParseFrom(d, at + 6, m2);
    assert ParseFrom(d, at + 6, m2) == ParseFrom(d, at + 12, m2);
    assert m2 == map[BOOT_MODE := [e.bootMode], STATUS := [e.status]];
  }

  predicate Has(ts: seq<Tlv>, kind: nat) {
    exists i :: 0 <= i < |ts| && ts[i].kind == kind
  }

  lemma {:induction false} EnterKeeps(found: map<nat, seq<byte>>, ts: seq<Tlv>, kind: nat)
    requires !Has(ts, kind)
    ensures kind in Enter(found, ts) <==> kind in found
    ensures kind in found ==> Enter(found, ts)[kind] == found[kind]
    decreases |ts|
  {
    if |ts| > 0 {
      assert ts[0].kind != kind;
      assert forall i :: 0 <= i < |ts[1..]| ==> ts[1..][i] == ts[i + 1];
      EnterKeeps(found[ts[0].kind := ts[0].value], ts[1..], kind);
    }
  }

  lemma {:induction false} EnterAt(found: map<nat, seq<byte>>, ts: seq<Tlv>, i: nat)
    requires ValidTlvs(ts) && i < |ts|
    ensures ts[i].kind in Enter(found, ts) && Enter(found, ts)[ts[i].kind] == ts[i].value
    decreases |ts|
  {
    var m := found[ts[0].kind := ts[0].value];
    if i == 0 {
      forall j | 0 <= j < |ts[1..]| ensures ts[1..][j].kind != ts[0].kind {
        assert ts[1..][j] == ts[j + 1];
      }
      EnterKeeps(m, ts[1..], ts[0].kind);
    } else {
      EnterAt(m, ts[1..], i - 1);
    }
  }

  /** What the parser should find in an entry's section. */
  function Recovered(e: Entry): map<nat, seq<byte>> {
    Enter(map[BOOT_MODE := [e.bootMode], STATUS := [e.status]], e.tlvs)
  }

  /** That is the boot mode, the status and every stored option, and nothing else. */
  lemma RecoveredIsExact(e: Entry, k: nat)
    requires ValidTlvs(e.tlvs)
    ensures BOOT_MODE in Recovered(e) && Recovered(e)[BOOT_MODE] == [e.bootMode]
    ensures STATUS in Recovered(e) && Recovered(e)[STATUS] == [e.status]
    ensures forall i :: 0 <= i < |e.tlvs| ==>
              e.tlvs[i].kind in Recovered(e) && Recovered(e)[e.tlvs[i].kind] == e.tlvs[i].value
    ensures k in Recovered(e) <==> k == BOOT_MODE || k == STATUS || Has(e.tlvs, k)
  {
    var found := map[BOOT_MODE := [e.bootMode], STATUS := [e.status]];
    forall i | 0 <= i < |e.tlvs|
      ensures e.tlvs[i].kind in Recovered(e) && Recovered(e)[e.tlvs[i].kind] == e.tlvs[i].value
    {
      EnterAt(found, e.tlvs, i);
    }
    if !Has(e.tlvs, k) {
      EnterKeeps(found, e.tlvs, k);
    }
    assert forall i :: 0 <= i < |e.tlvs| ==> Storable(e.tlvs[i]);
    EnterKeeps(found, e.tlvs, BOOT_MODE);
    EnterKeeps(found, e.tlvs, STATUS);
  }

  lemma SectionStands(pre: seq<byte>, e: Entry, net: seq<byte>)
    requires |net| == 4 && ValidTlvs(e.tlvs)
    ensures |pre| + 12 <= |pre + Section(e, net)|
    ensures (pre + Section(e, net))[|pre|..|pre| + 12] == Head(e, net)
    ensures (pre + Section(e, net))[|pre| + 12..] == PrintAll(e.tlvs)
  {
  }

  lemma StandingParsed(d: seq<byte>, at: nat, e: Entry, net: seq<byte>)
    requires |net| == 4 && ValidTlvs(e.tlvs)
    requires at + 12 <= |d| && d[at..at + 12] == Head(e, net) && d[at + 12..] == PrintAll(e.tlvs)
    ensures ParseFrom(d, at, map[]) == Found(Recovered(e))
  {
    HeadParsed(d, at, e, net);
    PrintedFollow(d, at + 12, e.tlvs);
    ParsePrinted(d, at + 12, e.tlvs, map[BOOT_MODE := [e.bootMode], STATUS := [e.status]]);
  }

  /** Parsing what was printed recovers the entry, wherever in a frame the section stands; the network
      information is skipped. */
  lemma RoundTrip(pre: seq<byte>, e: Entry, net: seq<byte>)
    requires |net| == 4 && ValidTlvs(e.tlvs)
    ensures ParseFrom(pre + Section(e, net), |pre|, map[]) == Found(Recovered(e))
  {
    SectionStands(pre, e, net);
    StandingParsed(pre + Section(e, net), |pre|, e, net);
  }

  // ------------------------------------------------------------------ storing

  /** provisioning_list_tlv_set: replaces the option in place or puts a new one in front. */
  function TlvSet(ts: seq<Tlv>, kind: nat, value: seq<byte>): seq<Tlv> {
    if |value| == 0 then ts
    else if Has(ts, kind) then Replaced(ts, kind, value)
    else [Tlv(kind, value)] + ts
  }

  function Replaced(ts: seq<Tlv>, kind: nat, value: seq<byte>): seq<Tlv> {
    if |ts| == 0 then []
    else if ts[0].kind == kind then [Tlv(kind, value)] + ts[1..]
    else [ts[0]] + Replaced(ts[1..], kind, value)
  }

  /** pvs_tlv_get: the value of the first option of the kind. */
  function TlvGet(ts: seq<Tlv>, kind: nat): Option<seq<byte>> {
    if |ts| == 0 then None else if ts[0].kind == kind then Some(ts[0].value) else TlvGet(ts[1..], kind)
  }

  lemma {:induction false} TlvGetMissing(ts: seq<Tlv>, kind: nat)
    ensures TlvGet(ts, kind) == None <==> !Has(ts, kind)
  {
    if |ts| > 0 {
      TlvGetMissing(ts[1..], kind);
      if Has(ts[1..], kind) {
        var i :| 0 <= i < |ts[1..]| && ts[1..][i].kind == kind;
        assert ts[i + 1].kind == kind;
      }
      if Has(ts, kind) && ts[0].kind != kind {
        var i :| 0 <= i < |ts| && ts[i].kind == kind;
        assert ts[1..][i - 1].kind == kind;
      }
    }
  }

  lemma {:induction false} ReplacedGet(ts: seq<Tlv>, kind: nat, value: seq<byte>, k: nat)
    ensures TlvGet(Replaced(ts, kind, value), k) ==
            if k == kind && TlvGet(ts, kind) != None then Some(value) else TlvGet(ts, k)
  {
    if |ts| > 0 {
      var r := Replaced(ts, kind, value);
      if ts[0].kind == kind {
        assert r[1..] == ts[1..];
      } else {
        assert r[1..] == Replaced(ts[1..], kind, value);
        ReplacedGet(ts[1..], kind, value, k);
      }
    }
  }

  lemma TlvSetGet(ts: seq<Tlv>, kind: nat, value: seq<byte>, k: nat)
    ensures TlvGet(TlvSet(ts, kind, value), k) == if k == kind && |value| > 0 then Some(value) else TlvGet(ts, k)
  {
    TlvGetMissing(ts, kind);
    if |value| > 0 {
      if Has(ts, kind) {
        ReplacedGet(ts, kind, value, k);
      } else {
        assert ([Tlv(kind, value)] + ts)[1..] == ts;
      }
    }
  }

  /** The order in which the set command stores what it found. */
  const ORDER: seq<nat> := [NAME, LOCATION, ADV_JOIN, PRODUCT_TYPE, PRODUCT_ID, MAX_INCLUSION, UUID16]

  /** The options after the first n kinds were stored. */
  function Stored(n: nat, ts: seq<Tlv>, found: map<nat, seq<byte>>): seq<Tlv>
    requires n <= |ORDER|
  {
    if n == 0 then ts
    else
      var done, k := Stored(n - 1, ts, found), ORDER[n - 1];
      if k in found then TlvSet(done, k, found[k]) else done
  }

  predicate Due(n: nat, found: map<nat, seq<byte>>, k: nat)
    requires n <= |ORDER|
  {
    k in found && |found[k]| > 0 && exists j :: 0 <= j < n && ORDER[j] == k
  }

  lemma {:induction false} StoredGet(n: nat, ts: seq<Tlv>, found: map<nat, seq<byte>>, k: nat)
    requires n <= |ORDER|
    ensures TlvGet(Stored(n, ts, found), k) == if Due(n, found, k) then Some(found[k]) else TlvGet(ts, k)
  {
    if n > 0 {
      StoredGet(n - 1, ts, found, k);
      var last := ORDER[n - 1];
      if last in found {
        TlvSetGet(Stored(n - 1, ts, found), last, found[last], k);
      }
    }
  }

  lemma {:induction false} TlvGetAt(ts: seq<Tlv>, i: nat)
    requires ValidTlvs(ts) && i < |ts|
    ensures TlvGet(ts, ts[i].kind) == Some(ts[i].value)
  {
    if i > 0 {
      TlvGetAt(ts[1..], i - 1);
    }
  }

  lemma HeldIsStored(e: Entry, i: nat)
    requires ValidTlvs(e.tlvs) && i < |e.tlvs|
    ensures TlvGet(Stored(|ORDER|, [], Recovered(e)), e.tlvs[i].kind) == Some(e.tlvs[i].value)
  {
    var k := e.tlvs[i].kind;
    RecoveredIsExact(e, k);
    StoredGet(|ORDER|, [], Recovered(e), k);
    KnownKind(e.tlvs[i]);
  }

  lemma MissingIsNotStored(e: Entry, k: nat)
    requires ValidTlvs(e.tlvs) && !Has(e.tlvs, k)
    ensures TlvGet(Stored(|ORDER|, [], Recovered(e)), k) == None
  {
    RecoveredIsExact(e, k);
    StoredGet(|ORDER|, [], Recovered(e), k);
    assert forall j :: 0 <= j < |ORDER| ==> ORDER[j] != BOOT_MODE && ORDER[j] != STATUS;
  }

  /** Storing what was recovered in an empty entry gives every option the value it had, and no option the
      entry did not have. */
  lemma StoreRoundTrip(e: Entry, k: nat)
    requires ValidTlvs(e.tlvs)
    ensures TlvGet(Stored(|ORDER|, [], Recovered(e)), k) == TlvGet(e.tlvs, k)
  {
    TlvGetMissing(e.tlvs, k);
    if Has(e.tlvs, k) {
      var i :| 0 <= i < |e.tlvs| && e.tlvs[i].kind == k;
      TlvGetAt(e.tlvs, i);
      HeldIsStored(e, i);
    } else {
      MissingIsNotStored(e, k);
    }
  }

  lemma KnownKind(t: Tlv)
    requires Storable(t)
    ensures exists j :: 0 <= j < |ORDER| && ORDER[j] == t.kind
  {
    assert ORDER[0] == NAME && ORDER[1] == LOCATION && ORDER[2] == ADV_JOIN && ORDER[3] == PRODUCT_TYPE;
    assert ORDER[4] == PRODUCT_ID && ORDER[5] == MAX_INCLUSION && ORDER[6] == UUID16;
  }
}
