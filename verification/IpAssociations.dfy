/** Bulk removal of IP associations (src/Bridge_ip_assoc.c): mark the matching entries, then remove
    them one by one. Each removal ends in a callback that starts the next one, which either happens
    later (a frame or a virtual-node request is outstanding) or at once, as nested recursion over the
    list that is being changed. */
module IpAssociations {
  import opened Lists
  import opened Basics

  const MAX_IP_ASSOCIATIONS := 200

  datatype AssocType = Permanent | Local | Proxy
  datatype Status = Ok | NoAck | TxFail | TxError

  /** An association; everything but the mark is fixed when it is created. */
  class IpAssoc {
    const virtualId: nat
    const kind: AssocType
    const resourceIp: nat
    const resourceEndpoint: nat
    const grouping: nat
    const hanNode: nat
    const hanEndpoint: nat
    var markRemoval: bool

    constructor (virtualId: nat, kind: AssocType, resourceIp: nat, resourceEndpoint: nat,
                 grouping: nat, hanNode: nat, hanEndpoint: nat)
      ensures !markRemoval
    {
      this.virtualId, this.kind := virtualId, kind;
      this.resourceIp, this.resourceEndpoint := resourceIp, resourceEndpoint;
      this.grouping, this.hanNode, this.hanEndpoint := grouping, hanNode, hanEndpoint;
      markRemoval := false;
    }
  }

  /** What a remove command asks for: 0 is a wildcard for endpoint, grouping and address, and the
      address may be absent altogether. */
  datatype Request = Request(node: nat, endpoint: nat, grouping: nat, ip: Option<nat>)

  predicate Matches(a: IpAssoc, r: Request) {
    && a.hanNode == r.node
    && (r.endpoint == 0 || a.hanEndpoint == r.endpoint)
    && (r.grouping == 0 || a.grouping == r.grouping)
    && (r.ip == None || r.ip == Some(0) || r.ip == Some(a.resourceIp))
  }

  ghost function MatchesIn(s: seq<IpAssoc>, r: Request): set<IpAssoc> {
    set a | a in s && Matches(a, r)
  }

  /** A request that names no endpoint removes what the requests for the single endpoints remove, each its own
      part of it, and besides that the entries of the node itself, which no named endpoint reaches; and likewise
      for groupings. */
  lemma WildcardIsUnion(s: seq<IpAssoc>, r: Request, a: IpAssoc)
    requires a in s
    ensures a in MatchesIn(s, r.(endpoint := 0)) <==>
            || (exists e: nat :: e != 0 && a in MatchesIn(s, r.(endpoint := e)))
            || (a.hanEndpoint == 0 && a in MatchesIn(s, r.(endpoint := 0)))
    ensures forall e: nat | e != 0 && a in MatchesIn(s, r.(endpoint := e)) :: a.hanEndpoint == e
    ensures a in MatchesIn(s, r.(grouping := 0)) <==>
            || (exists g: nat :: g != 0 && a in MatchesIn(s, r.(grouping := g)))
            || (a.grouping == 0 && a in MatchesIn(s, r.(grouping := 0)))
    ensures forall g: nat | g != 0 && a in MatchesIn(s, r.(grouping := g)) :: a.grouping == g
  {
    assert a in MatchesIn(s, r.(endpoint := 0)) ==> a in MatchesIn(s, r.(endpoint := a.hanEndpoint));
    assert a in MatchesIn(s, r.(grouping := 0)) ==> a in MatchesIn(s, r.(grouping := a.grouping));
  }

  /** No address, and the address 0, stand for all addresses. */
  lemma AnyAddress(s: seq<IpAssoc>, r: Request, a: IpAssoc)
    requires a in s
    ensures MatchesIn(s, r.(ip := Some(0))) == MatchesIn(s, r.(ip := None))
    ensures a in MatchesIn(s, r.(ip := None)) <==> a in MatchesIn(s, r.(ip := Some(a.resourceIp)))
  {}

  /** Entries that agree in node, endpoint, grouping and address go or stay together. */
  lemma SameFate(s: seq<IpAssoc>, r: Request, a: IpAssoc, b: IpAssoc)
    requires a in s && b in s
    requires a.hanNode == b.hanNode && a.hanEndpoint == b.hanEndpoint
    requires a.grouping == b.grouping && a.resourceIp == b.resourceIp
    ensures a in MatchesIn(s, r) <==> b in MatchesIn(s, r)
  {}

  lemma VictimsKnown(s: seq<IpAssoc>, r: Request, nodes: set<nat>)
    ensures var m := MatchesIn(s, r);
            KnownCount(Within(s, m), nodes) == if r.node in nodes then |s| - |Outside(s, m)| else 0
  {
    var m := MatchesIn(s, r);
    var w := Within(s, m);
    forall i | 0 <= i < |w| ensures w[i].hanNode == r.node {
      WithinAt(s, m, i);
    }
    OneNode(w, nodes, r.node);
    SplitLength(s, m);
  }

  /** The callback the bridge is waiting for, if any. */
  datatype Waiting = Nothing | Transmission(a: IpAssoc) | VirtualNode

  /** Answers to the client, remove commands handed to the transport, virtual nodes the radio was asked to remove,
      done events posted and entries freed. */
  datatype Output = Output(
    zipOk: nat, zipError: nat, zipFail: nat, frames: nat, released: seq<nat>, doneEvents: nat, freed: nat)

  /** The virtual nodes of the permanent associations, in order. */
  function PermanentIds(s: seq<IpAssoc>): seq<nat> {
    if s == [] then []
    else (if s[0].kind == Permanent then [s[0].virtualId] else []) + PermanentIds(s[1..])
  }

  /** How many associations are of nodes in the database. */
  function KnownCount(s: seq<IpAssoc>, nodes: set<nat>): nat {
    if s == [] then 0 else (if s[0].hanNode in nodes then 1 else 0) + KnownCount(s[1..], nodes)
  }

  lemma {:induction false} OneNode(s: seq<IpAssoc>, nodes: set<nat>, node: nat)
    requires forall i :: 0 <= i < |s| ==> s[i].hanNode == node
    ensures KnownCount(s, nodes) == if node in nodes then |s| else 0
  {
    if s != [] {
      OneNode(s[1..], nodes, node);
    }
  }

  ghost predicate Picked(ms: seq<IpAssoc>, index: nat, result: IpAssoc?) {
    var p := LastHit(|ms|, index);
    if p == 0 then result == null else result == ms[p - 1]
  }

  class Bridge {
    var table: seq<IpAssoc>
    var inUse: set<IpAssoc>
    var numberMarked: nat
    var waiting: Waiting
    const nodes: set<nat>        // the nodes in the database
    var out: Output
    ghost var refusals: nat      // remove commands the transport has refused
    ghost var victims: set<IpAssoc>
    ghost var unlinked: seq<IpAssoc>

    ghost function Entries(): set<IpAssoc>
      reads this
    {
      set a | a in table
    }

    /** Entries already unlinked whose memory is still to be returned by an enclosing call. */
    ghost function Limbo(): set<IpAssoc>
      reads this
    {
      inUse - Entries()
    }

    /** The table is well formed and `victims` are its marked entries plus some already unlinked. */
    ghost predicate Valid()
      reads this, table
    {
      && Distinct(table) && |table| <= MAX_IP_ASSOCIATIONS
      && Entries() <= inUse
      && forall a :: a in table ==> a.markRemoval == (a in victims) && (a in victims ==> a.kind != Proxy)
    }

    ghost function Left(): nat
      reads this
    {
      |Within(table, victims)|
    }

    /** Remove commands sent and to be sent. */
    ghost function Frames(): int
      reads this
    {
      out.frames + KnownCount(Within(table, victims), nodes) - (if waiting.Transmission? then 1 else 0)
    }

    /** From any point of a bulk removal to any later one. */
    twostate predicate Advanced()
      reads this, table
    {
      && Valid() && victims == old(victims)
      && Outside(table, victims) == old(Outside(table, victims))
      && unlinked + Within(table, victims) == old(unlinked + Within(table, victims))
      && old(unlinked) <= unlinked
      && Limbo() == old(Limbo())
      && inUse <= old(inUse)
      && out.freed + |table| == old(out.freed + |table|)
      && out.released + PermanentIds(Within(table, victims)) == old(out.released + PermanentIds(Within(table, victims)))
      && out.zipError - refusals == old(out.zipError - refusals)
    }

    /** The counter and the outstanding callback agree with what is left to remove. */
    ghost predicate Resting()
      reads this
    {
      match waiting
      case Nothing => Left() == 0 && numberMarked == 0
      case Transmission(a) =>
        Left() > 0 && a == Within(table, victims)[0] && numberMarked == Left() && a.hanNode in nodes
      case VirtualNode => numberMarked == Left() + 1
    }

    /** The removal has come to rest: complete, and then announced exactly once, or awaiting a callback. */
    twostate predicate Rested()
      reads this
    {
      && Resting()
      && out.doneEvents == old(out.doneEvents) + (if waiting == Nothing then 1 else 0)
      && out.zipOk == old(out.zipOk) + (if waiting == Nothing then 1 else 0)
    }

    constructor (nodes: set<nat>)
      ensures Valid() && table == [] && inUse == {} && waiting == Nothing && victims == {} && numberMarked == 0
      ensures this.nodes == nodes
    {
      table, inUse, numberMarked, waiting, this.nodes := [], {}, 0, Nothing, nodes;
      out := Output(0, 0, 0, 0, [], 0, 0);
      victims, unlinked, refusals := {}, [], 0;
    }

    method FindFirstMarked() returns (a: IpAssoc?)
      requires Valid()
      ensures a == null <==> Within(table, victims) == []
      ensures a != null ==> FirstIn(table, victims, a)
    {
      WithinElements(table, victims);
      var i := 0;
      while i < |table|
        invariant 0 <= i <= |table|
        invariant forall j :: 0 <= j < i ==> table[j] !in victims
      {
        if table[i].markRemoval {
          assert table[i] in Within(table, victims);
          return table[i];
        }
        i := i + 1;
      }
      a := null;
      if Within(table, victims) != [] {
        HeadIsFirst(table, victims);
        assert false;
      }
    }

    /** memb_free: the element must be in use. */
    method Free(a: IpAssoc)
      requires a in inUse
      modifies this`inUse, this`out
      ensures inUse == old(inUse) - {a} && out == old(out).(freed := old(out.freed) + 1)
    {
      inUse := inUse - {a};
      out := out.(freed := out.freed + 1);
    }

    method RemoveAllMarked()
      requires Valid() && Left() > 0 && numberMarked == Left() && waiting == Nothing
      modifies this
      ensures Advanced() && Rested() && Frames() == old(Frames())
      ensures Left() < old(Left()) || waiting.Transmission?
      decreases Left(), 4
    {
      var a := FindFirstMarked();
      if a != null {
        SendRemoveCommand(a);
      } else {
        assert false;
      }
    }

    method SendRemoveCommand(a: IpAssoc)
      requires Valid() && Left() > 0 && numberMarked == Left() && waiting == Nothing
      requires FirstIn(table, victims, a)
      modifies this
      ensures Advanced() && Rested() && Frames() == old(Frames())
      ensures Left() < old(Left()) || waiting.Transmission?
      decreases Left(), 3
    {
      if a.hanNode !in nodes {
        RemoveCallback(Ok, a);
        return;
      }
      var accepted: bool := *;
      refusals := refusals + if accepted then 0 else 1;
      out := out.(frames := out.frames + 1);
      if accepted {
        waiting := Transmission(a);
        WithinUnlinkFirst(table, victims, a);
      } else {
        out := out.(zipError := out.zipError + 1);
        Remove(a);
      }
    }

    /** The association source node has answered. Any other status than OK or NO_ACK stops the whole
        removal where it is: the remaining entries stay in the table, still marked. */
    method RemoveCallback(status: Status, a: IpAssoc)
      requires Valid() && Left() > 0 && numberMarked == Left() && waiting == Nothing
      requires FirstIn(table, victims, a)
      modifies this
      ensures status in {Ok, NoAck} ==> Advanced() && Rested() && Left() < old(Left())
      ensures status in {Ok, NoAck} ==> Frames() == old(Frames()) - if a.hanNode in nodes then 1 else 0
      ensures status !in {Ok, NoAck} ==>
        && out == old(out).(zipFail := old(out.zipFail) + 1)
        && table == old(table) && inUse == old(inUse) && numberMarked == old(numberMarked)
        && waiting == Nothing && victims == old(victims) && unlinked == old(unlinked) && refusals == old(refusals)
      decreases Left(), 2
    {
      if status == Ok || status == NoAck {
        Remove(a);
      } else {
        out := out.(zipFail := out.zipFail + 1);
      }
    }

    /** list_remove of the first marked entry. */
    method Detach(a: IpAssoc)
      requires Valid() && FirstIn(table, victims, a)
      modifies this`table, this`unlinked
      ensures Valid() && Left() == old(Left()) - 1 && |table| == old(|table|) - 1
      ensures unlinked == old(unlinked) + [a]
      ensures unlinked + Within(table, victims) == old(unlinked + Within(table, victims))
      ensures Outside(table, victims) == old(Outside(table, victims))
      ensures a in Limbo() && Limbo() == old(Limbo()) + {a}
      ensures KnownCount(Within(table, victims), nodes) ==
        old(KnownCount(Within(table, victims), nodes)) - if a.hanNode in nodes then 1 else 0
      ensures (if a.kind == Permanent then [a.virtualId] else []) + PermanentIds(Within(table, victims)) ==
        old(PermanentIds(Within(table, victims)))
    {
      WithinUnlinkFirst(table, victims, a);
      UnlinkElements(table, a);
      table := Unlink(table, a);
      unlinked := unlinked + [a];
      assert Entries() == old(Entries()) - {a};
    }

    /** A permanent association has a virtual node that the radio is asked to remove, and may answer later. */
    method Release(a: IpAssoc) returns (later: bool)
      modifies this`waiting, this`out
      ensures later ==> a.kind == Permanent
      ensures waiting == if later then VirtualNode else old(waiting)
      ensures out == old(out).(released := old(out.released) + if a.kind == Permanent then [a.virtualId] else [])
    {
      later := false;
      if a.kind == Permanent {
        out := out.(released := out.released + [a.virtualId]);
        later := *;
        if later {
          waiting := VirtualNode;
        }
      }
    }

    /** The entry leaves the table, and its virtual node the radio; only the memory is still to be returned. */
    method TakeOut(a: IpAssoc) returns (later: bool)
      requires Valid() && FirstIn(table, victims, a) && waiting == Nothing
      modifies this`table, this`unlinked, this`waiting, this`out
      ensures Valid() && Left() == old(Left()) - 1 && |table| == old(|table|) - 1
      ensures old(unlinked) <= unlinked && unlinked + Within(table, victims) == old(unlinked + Within(table, victims))
      ensures Outside(table, victims) == old(Outside(table, victims))
      ensures a in Limbo() && Limbo() == old(Limbo()) + {a}
      ensures Frames() == old(Frames()) - if a.hanNode in nodes then 1 else 0
      ensures out.released + PermanentIds(Within(table, victims)) ==
        old(out.released + PermanentIds(Within(table, victims)))
      ensures waiting == (if later then VirtualNode else Nothing) && out == old(out).(released := out.released)
    {
      Detach(a);
      later := Release(a);
    }

    method Remove(a: IpAssoc)
      requires Valid() && Left() > 0 && numberMarked == Left() && waiting == Nothing
      requires FirstIn(table, victims, a)
      modifies this
      ensures Advanced() && Rested()
      ensures Left() < old(Left()) && Frames() == old(Frames()) - if a.hanNode in nodes then 1 else 0
      decreases Left(), 1
    {
      var later := TakeOut(a);
      if !later {
        ContinueWithNext();
      }
      Free(a);
    }

    method ContinueWithNext()
      requires Valid() && numberMarked == Left() + 1 && waiting == Nothing
      modifies this
      ensures Advanced() && Rested() && Frames() == old(Frames())
      ensures Left() < old(Left()) || waiting != VirtualNode
      decreases Left(), 5
    {
      if numberMarked > 0 {
        numberMarked := numberMarked - 1;
      }
      if numberMarked != 0 {
        RemoveAllMarked();
      } else {
        out := out.(zipOk := out.zipOk + 1, doneEvents := out.doneEvents + 1);
      }
    }

    /** Marks exactly the matching entries, on top of any mark left from before, and counts the
        matches: a second call with the same request counts them again. */
    method FindAndMark(r: Request)
      requires Distinct(table)
      modifies this`numberMarked, table
      ensures forall a :: a in table ==> a.markRemoval == (old(a.markRemoval) || Matches(a, r))
      ensures numberMarked == |Within(table, MatchesIn(table, r))|
    {
      ghost var m := MatchesIn(table, r);
      numberMarked := 0;
      var i := 0;
      while i < |table|
        invariant 0 <= i <= |table| && numberMarked == |Within(table[..i], m)|
        invariant forall j :: 0 <= j < |table| ==>
          table[j].markRemoval == (old(table[j].markRemoval) || (j < i && Matches(table[j], r)))
      {
        assert table[..i + 1] == table[..i] + [table[i]];
        WithinSnoc(table[..i], table[i], m);
        if Matches(table[i], r) {
          table[i].markRemoval := true;
          numberMarked := numberMarked + 1;
        }
        i := i + 1;
      }
      assert table[..i] == table;
    }

    /** No bulk removal is under way and no entry is marked. */
    ghost predicate Quiet()
      reads this, table
    {
      Valid() && waiting == Nothing && victims == {} && Limbo() == {}
    }

    /** The callback the bridge waits for arrives; a frame's callback reports OK or NO_ACK. */
    method CallbackArrives()
      requires Valid() && waiting != Nothing && Resting()
      modifies this
      ensures Advanced() && Rested() && Frames() == old(Frames())
      ensures Left() < old(Left()) || (Left() <= old(Left()) && old(waiting) == VirtualNode && waiting != VirtualNode)
    {
      match waiting {
        case Transmission(a) =>
          var acknowledged: bool := *;
          waiting := Nothing;
          HeadIsFirst(table, victims);
          RemoveCallback(if acknowledged then Ok else NoAck, a);
        case VirtualNode =>
          waiting := Nothing;
          ContinueWithNext();
      }
    }

    method RunToCompletion()
      requires Valid() && Resting()
      modifies this
      ensures Advanced() && waiting == Nothing && Resting() && Frames() == old(Frames())
      ensures out.doneEvents == old(out.doneEvents) + (if old(waiting) == Nothing then 0 else 1)
    {
      while waiting != Nothing
        invariant Advanced() && Resting() && Frames() == old(Frames())
        invariant out.doneEvents ==
          old(out.doneEvents) + (if waiting != Nothing || old(waiting) == Nothing then 0 else 1)
        decreases Left(), waiting == VirtualNode, waiting != Nothing
      {
        CallbackArrives();
      }
    }

    lemma NothingInLimbo()
      requires Valid() && Limbo() == {}
      ensures forall a :: a in inUse <==> a in table
    {
      forall a | a in inUse ensures a in table {
        assert a in Limbo() || a in Entries();
      }
      forall a | a in table ensures a in inUse {
        assert a in Entries();
      }
    }

    /** Marking at the start of a bulk removal: the victims are the matching entries. */
    method Mark(r: Request)
      requires Quiet()
      requires forall a :: a in table && Matches(a, r) ==> a.kind != Proxy
      modifies this`numberMarked, this`victims, table
      ensures Valid() && victims == MatchesIn(table, r) && numberMarked == Left()
    {
      FindAndMark(r);
      victims := MatchesIn(table, r);
    }

    method Sweep()
      requires Valid() && numberMarked == Left() && waiting == Nothing
      modifies this
      ensures Advanced() && waiting == Nothing && Resting() && Frames() == old(Frames())
      ensures out.doneEvents == old(out.doneEvents) + 1
    {
      if numberMarked != 0 {
        RemoveAllMarked();
        RunToCompletion();
      } else {
        out := out.(doneEvents := out.doneEvents + 1);
      }
    }

    /** A whole bulk removal, for every interleaving of immediate and later completions: exactly the
        matching entries leave the table, once each and in table order, and their memory is freed; the
        others stay in order; the counter is back at 0 and the done event was posted exactly once. An entry
        stays exactly if it is another node's, or differs in what the request names: the endpoint of the node,
        the grouping or the address; the resource's endpoint does not count. The node, if it is in the database, is
        sent one remove command per entry, and the radio is asked to remove the virtual nodes of the permanent
        ones. */
    method BulkRemove(r: Request)
      requires Quiet()
      requires forall a :: a in table && Matches(a, r) ==> a.kind != Proxy
      modifies this, table
      ensures Quiet() && numberMarked == 0
      ensures forall a :: a in old(table) ==>
        (a in table <==>
         || a.hanNode != r.node
         || (r.endpoint != 0 && a.hanEndpoint != r.endpoint)
         || (r.grouping != 0 && a.grouping != r.grouping)
         || (r.ip.Some? && r.ip.value != 0 && a.resourceIp != r.ip.value))
      ensures table == Outside(old(table), MatchesIn(old(table), r))
      ensures unlinked == old(unlinked) + Within(old(table), MatchesIn(old(table), r))
      ensures inUse == old(inUse) - MatchesIn(old(table), r)
      ensures out.freed + |table| == old(out.freed) + |old(table)|
      ensures out.doneEvents == old(out.doneEvents) + 1
      ensures out.frames == old(out.frames) + if r.node in nodes then old(|table|) - |table| else 0
      ensures out.released == old(out.released) + PermanentIds(Within(old(table), MatchesIn(old(table), r)))
      ensures out.zipError - old(out.zipError) == refusals - old(refusals)
    {
      ghost var table0, m := table, MatchesIn(table, r);
      VictimsKnown(table, r, nodes);
      NothingInLimbo();
      Mark(r);
      Sweep();
      WithinElements(table, m);
      WithinElements(table0, m);
      OutsideElements(table0, m);
      assert table == Outside(table0, m);
      NothingInLimbo();
      assert unlinked == old(unlinked) + Within(table0, m);
      victims := {};
    }

    ghost function Group(node: nat, endpoint: nat, grouping: nat): set<IpAssoc>
      reads this
    {
      set a | a in table && a.hanNode == node && a.hanEndpoint == endpoint && a.grouping == grouping
    }

    /** Counts the associations of a grouping and picks the index-th one, with the 8-bit counter and
        index of the source: for tables longer than 255 both wrap around. */
    method FindByGrouping(node: nat, endpoint: nat, grouping: nat, index: nat) returns (count: nat, result: IpAssoc?)
      requires index < 256
      ensures var ms := Within(table, Group(node, endpoint, grouping));
        && count == |ms| % 256
        && Picked(ms, index, result)
    {
      ghost var g := Group(node, endpoint, grouping);
      ghost var ms: seq<IpAssoc> := [];
      var rest := index;
      count, result := 0, null;
      var i := 0;
      while i < |table|
        invariant 0 <= i <= |table| && ms == Within(table[..i], g)
        invariant count == |ms| % 256 && rest == (index - |ms|) % 256
        invariant Picked(ms, index, result)
      {
        assert table[..i + 1] == table[..i] + [table[i]];
        WithinSnoc(table[..i], table[i], g);
        var a := table[i];
        if a.hanNode == node && a.hanEndpoint == endpoint && a.grouping == grouping {
          WrapStep(index, |ms|);
          count := (count + 1) % 256;
          rest := (rest + 255) % 256;
          if rest == 0 {
            result := a;
          }
          ms := ms + [a];
        }
        i := i + 1;
      }
      assert table[..i] == table;
    }

    /** What a caller gets while the table is within its bound. */
    method LookUpInGroup(node: nat, endpoint: nat, grouping: nat, index: nat) returns (count: nat, result: IpAssoc?)
      requires Valid() && index < 256
      ensures var ms := Within(table, Group(node, endpoint, grouping));
        && count == |ms|
        && (if 1 <= index <= |ms| then result == ms[index - 1] else result == null)
    {
      WithinShorter(table, Group(node, endpoint, grouping));
      HitWithoutWrap(|Within(table, Group(node, endpoint, grouping))|, index);
      count, result := FindByGrouping(node, endpoint, grouping, index);
    }
  }

  /** The last of n positions an 8-bit index counted down from its start reaches 0 at; 0 for none. */
  function LastHit(n: nat, index: nat): (p: nat)
    ensures p <= n
  {
    if n == 0 then 0 else if n % 256 == index then n else LastHit(n - 1, index)
  }

  /** One step of the 8-bit counter and index. */
  lemma WrapStep(index: nat, c: nat)
    requires index < 256
    ensures (c % 256 + 1) % 256 == (c + 1) % 256
    ensures ((index - c) % 256 + 255) % 256 == (index - (c + 1)) % 256
    ensures (index - (c + 1)) % 256 == 0 <==> (c + 1) % 256 == index
  {
    CountUp(c);
    CountDown(index - c);
    CountsMeet(index, c + 1);
  }

  lemma CountUp(c: nat)
    ensures (c % 256 + 1) % 256 == (c + 1) % 256
  {}

  lemma CountDown(x: int)
    ensures (x % 256 + 255) % 256 == (x - 1) % 256
  {}

  lemma CountsMeet(index: nat, c: nat)
    requires index < 256
    ensures (index - c) % 256 == 0 <==> c % 256 == index
  {
    var q, r := c / 256, c % 256;
    assert index - c == (index - r) - 256 * q;
    assert (index - c) % 256 == (index - r) % 256;
  }

  lemma {:induction false} HitWithoutWrap(n: nat, index: nat)
    requires n < 256 && index < 256
    ensures LastHit(n, index) == if 1 <= index <= n then index else 0
  {
    if n > 0 && n != index {
      HitWithoutWrap(n - 1, index);
    }
  }

  /** The wrapping index picks the right entry for every index exactly when there are fewer than 256. */
  lemma WrapIsHarmless(n: nat)
    ensures (forall index :: 0 <= index < 256 ==> LastHit(n, index) == if 1 <= index <= n then index else 0)
            <==> n < 256
  {
    if n < 256 {
      forall index | 0 <= index < 256
        ensures LastHit(n, index) == if 1 <= index <= n then index else 0
      {
        HitWithoutWrap(n, index);
      }
    } else {
      HitZero(n);
    }
  }

  lemma {:induction false} HitZero(n: nat)
    requires n >= 256
    ensures LastHit(n, 0) != 0
  {
    if n % 256 != 0 {
      HitZero(n - 1);
    }
  }
}
