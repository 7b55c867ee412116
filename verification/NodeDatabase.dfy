/** The node database and its device specific keys (src/RD_internal.c): no device is registered as two
    nodes. */
module NodeDatabase {
  import opened Basics

  const MAX_NODES: nat := 4000
  const DSK_LENGTH: nat := 16

  /** A slot of the table: no node, or a node with its DSK, empty if it has none. */
  type Slot = Option<seq<byte>>

  predicate Holds(s: Slot, dsk: seq<byte>) {
    s.Some? && s.value == dsk
  }

  /** What the lookup compares: the given bytes with the beginning of the stored DSK. */
  predicate Matches(s: Slot, dsk: seq<byte>) {
    s.Some? && |s.value| >= |dsk| && s.value[..|dsk|] == dsk
  }

  predicate FirstMatch(t: seq<Slot>, dsk: seq<byte>, i: nat) {
    i < |t| && Matches(t[i], dsk) && forall j :: 0 <= j < i ==> !Matches(t[j], dsk)
  }

  predicate NoMatch(t: seq<Slot>, dsk: seq<byte>) {
    forall j :: 0 <= j < |t| ==> !Matches(t[j], dsk)
  }

  predicate Unique(t: seq<Slot>) {
    forall i, j :: 0 <= i < j < |t| && t[i].Some? && t[i].value != [] ==> t[i] != t[j]
  }

  predicate FullLength(t: seq<Slot>) {
    forall i :: 0 <= i < |t| && t[i].Some? ==> |t[i].value| == 0 || |t[i].value| == DSK_LENGTH
  }

  /** The table after a DSK was given to node index n, which index i held before (i == n if nobody did). */
  function Given(t: seq<Slot>, n: nat, i: nat, dsk: seq<byte>): seq<Slot>
    requires n < |t| && i < |t|
  {
    t[i := Some([])][n := Some(dsk)]
  }

  /** The table stays unique exactly when nobody keeps the DSK but the node that is given it. */
  lemma OnlyHolder(t: seq<Slot>, n: nat, i: nat, dsk: seq<byte>)
    requires Unique(t) && n < |t| && i < |t| && |dsk| > 0
    ensures Unique(Given(t, n, i, dsk)) <==> forall j :: 0 <= j < |t| && Holds(t[j], dsk) ==> j == i || j == n
  {
    var u := Given(t, n, i, dsk);
    if j :| 0 <= j < |t| && Holds(t[j], dsk) && j != i && j != n {
      assert u[j] == t[j] == u[n];
      assert !Unique(u) by {
        if j < n {
          assert u[j].value != [];
        } else {
          assert u[n].value != [];
        }
      }
    }
  }

  /** A key that begins with the same bytes stands in front of the one that is the DSK, and the holder is not
      the node that is to have it. */
  predicate Shadowed(t: seq<Slot>, n: nat, dsk: seq<byte>) {
    exists j, h :: 0 <= j < h < |t| && h != n && Matches(t[j], dsk) && Holds(t[h], dsk)
  }

  /** What the lookup leads to, for keys of any length: the table stays unique exactly when no longer key
      shadows the holder. A shadowed holder keeps the DSK, and the node in front of it loses its own. */
  lemma GivenIsUnique(t: seq<Slot>, n: nat, i: nat, dsk: seq<byte>)
    requires Unique(t) && n < |t| && |dsk| > 0
    requires FirstMatch(t, dsk, i) || (NoMatch(t, dsk) && i == n)
    ensures Unique(Given(t, n, i, dsk)) <==> !Shadowed(t, n, dsk)
  {
    OnlyHolder(t, n, i, dsk);
    assert dsk[..|dsk|] == dsk;
    if Shadowed(t, n, dsk) {
      var j, h :| 0 <= j < h < |t| && h != n && Matches(t[j], dsk) && Holds(t[h], dsk);
      assert i <= j < h;
    } else {
      forall h | 0 <= h < |t| && Holds(t[h], dsk) ensures h == i || h == n {
        assert Matches(t[h], dsk);
      }
    }
  }

  /** That does happen with DSKs of unequal length. */
  lemma PrefixBreaksUniqueness(dsk: seq<byte>, b: byte)
    requires |dsk| > 0
    ensures var t := [Some(dsk + [b]), Some(dsk), Some([])];
            Unique(t) && FirstMatch(t, dsk, 0) && !Unique(Given(t, 2, 0, dsk))
  {
    var t := [Some(dsk + [b]), Some(dsk), Some([])];
    assert t[0].value[..|dsk|] == dsk && |t[0].value| != |t[1].value|;
    GivenIsUnique(t, 2, 0, dsk);
    assert Matches(t[0], dsk) && Holds(t[1], dsk);
  }

  /** With DSKs of one length the slot found is the holder, so the condition always holds. */
  lemma FullLengthIsEnough(t: seq<Slot>, n: nat, i: nat, dsk: seq<byte>)
    requires Unique(t) && FullLength(t) && |dsk| == DSK_LENGTH && n < |t|
    requires FirstMatch(t, dsk, i) || (NoMatch(t, dsk) && i == n)
    ensures forall j :: 0 <= j < |t| && Matches(t[j], dsk) ==> j == i
    ensures forall j :: 0 <= j < |t| && Holds(t[j], dsk) ==> j == i
    ensures FirstMatch(t, dsk, i) ==> Holds(t[i], dsk)
  {
    forall j | 0 <= j < |t| && Matches(t[j], dsk) ensures Holds(t[j], dsk) {
      assert t[j].value[..DSK_LENGTH] == t[j].value;
    }
    forall j | 0 <= j < |t| && Matches(t[j], dsk) ensures j == i {
      assert t[j] == t[i];
    }
    forall j | 0 <= j < |t| && Holds(t[j], dsk) ensures j == i {
      assert dsk[..|dsk|] == dsk && Matches(t[j], dsk);
    }
  }

  /** The DSK ends up with the node alone, or with nobody if there was no memory for it. */
  lemma GivenIsFound(t: seq<Slot>, n: nat, i: nat, dsk: seq<byte>)
    requires Unique(t) && FullLength(t) && |dsk| == DSK_LENGTH && n < |t| && t[n].Some?
    requires FirstMatch(t, dsk, i) || (NoMatch(t, dsk) && i == n)
    ensures Unique(Given(t, n, i, dsk)) && FullLength(Given(t, n, i, dsk)) && FirstMatch(Given(t, n, i, dsk), dsk, n)
    ensures Unique(Given(t, n, i, [])) && FullLength(Given(t, n, i, [])) && NoMatch(Given(t, n, i, []), dsk)
  {
    FullLengthIsEnough(t, n, i, dsk);
    OnlyHolder(t, n, i, dsk);
    assert dsk[..|dsk|] == dsk;
  }

  class Database {
    const ndb: array<Slot>

    ghost predicate Valid()
      reads ndb
    {
      ndb.Length == MAX_NODES && FullLength(ndb[..]) && Unique(ndb[..])
    }

    constructor ()
      ensures Valid() && fresh(ndb)
      ensures forall i :: 0 <= i < ndb.Length ==> ndb[i] == None
    {
      ndb := new Slot[MAX_NODES](i => None);
    }

    /** rd_node_entry_alloc: a new node has no DSK, whoever had the id before. */
    method Alloc(node: nat, memory: bool)
      requires Valid() && 1 <= node <= MAX_NODES
      modifies ndb
      ensures Valid()
      ensures ndb[..] == old(ndb[..])[node - 1 := if memory then Some([]) else None]
    {
      ndb[node - 1] := if memory then Some([]) else None;
    }

    method Free(node: nat)
      requires Valid() && 1 <= node <= MAX_NODES
      modifies ndb
      ensures Valid()
      ensures ndb[..] == old(ndb[..])[node - 1 := None]
    {
      ndb[node - 1] := None;
    }

    method LookupByDsk(dsk: seq<byte>) returns (found: bool, i: nat)
      ensures found ==> |dsk| > 0 && FirstMatch(ndb[..], dsk, i)
      ensures !found ==> |dsk| == 0 || NoMatch(ndb[..], dsk)
    {
      if |dsk| == 0 {
        return false, 0;
      }
      i := 0;
      while i < ndb.Length
        invariant 0 <= i <= ndb.Length
        invariant forall j :: 0 <= j < i ==> !Matches(ndb[j], dsk)
      {
        if ndb[i].Some? && |ndb[i].value| >= |dsk| && ndb[i].value[..|dsk|] == dsk {
          return true, i;
        }
        i := i + 1;
      }
      return false, 0;
    }

    /** rd_node_add_dsk: the DSK moves to the node. Only a node that has no other DSK may be given one; the
        source asserts it. */
    method AddDsk(node: nat, dsk: seq<byte>, memory: bool) returns (ghost from: nat)
      requires Valid() && 1 <= node <= MAX_NODES
      requires |dsk| == 0 || |dsk| == DSK_LENGTH
      requires ndb[node - 1].Some? && |dsk| > 0 ==> ndb[node - 1].value == [] || ndb[node - 1].value == dsk
      modifies ndb
      ensures Valid()
      ensures |dsk| == 0 || old(ndb[node - 1]).None? ==> ndb[..] == old(ndb[..])
      ensures |dsk| > 0 && old(ndb[node - 1]).Some? ==>
                && from < MAX_NODES && (from == node - 1 || Holds(old(ndb[from]), dsk))
                && ndb[..] == Given(old(ndb[..]), node - 1, from, if memory then dsk else [])
                && (memory ==> FirstMatch(ndb[..], dsk, node - 1))
                && (!memory ==> NoMatch(ndb[..], dsk))
    {
      from := node - 1;
      if |dsk| == 0 || ndb[node - 1].None? {
        return;
      }
      ghost var was := ndb[..];
      var found, i := LookupByDsk(dsk);
      if found {
        from := i;
        ndb[i] := Some([]);
      }
      FullLengthIsEnough(was, node - 1, from, dsk);
      assert dsk[..|dsk|] == dsk;
      assert ndb[node - 1] == Some([]);
      GivenIsFound(was, node - 1, from, dsk);
      ndb[node - 1] := Some(if memory then dsk else []);
      assert ndb[..] == Given(was, node - 1, from, if memory then dsk else []);
    }
  }
}
