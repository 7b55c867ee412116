/** The node add status frame assembled after the interview of a new node, and the list insertion it uses
    (src/CC_NetworkManagement.c, mem_insert and NM_WAIT_FOR_PROBE_AFTER_ADD). */
module StatusFrame {
  import opened Basics

  const ASSOCIATION: byte := 0x85
  const IP_ASSOCIATION: byte := 0x5C
  const NODE_ADD_STATUS: byte := 0x02

  const BUFFER: nat := 256
  /** Offsets in the frame: nodeInfoLength and the first command class. */
  const LENGTH_AT: nat := 6
  const CLASSES_AT: nat := 12
  const DSK: nat := 16

  // ------------------------------------------------------------------ mem_insert

  /** The list with `add` put in after every `find`. */
  function Inserted(src: seq<byte>, find: byte, add: byte): seq<byte> {
    if |src| == 0 then []
    else if src[0] == find then [find, add] + Inserted(src[1..], find, add)
    else [src[0]] + Inserted(src[1..], find, add)
  }

  /** The list without the element that follows each `find`. */
  function Dropped(src: seq<byte>, find: byte): seq<byte> {
    if |src| == 0 then []
    else if src[0] == find then [find] + Dropped(src[if |src| == 1 then 1 else 2..], find)
    else [src[0]] + Dropped(src[1..], find)
  }

  /** The insertion can be undone: nothing of the original list is lost or reordered. */
  lemma {:induction false} InsertedDropped(src: seq<byte>, find: byte, add: byte)
    ensures Dropped(Inserted(src, find, add), find) == src
  {
    if |src| > 0 {
      InsertedDropped(src[1..], find, add);
      var rest := Inserted(src[1..], find, add);
      if src[0] == find {
        assert ([find, add] + rest)[2..] == rest;
      } else {
        assert ([src[0]] + rest)[1..] == rest;
      }
    }
  }

  /** How far the first i elements of the list reach in the result. */
  function Reach(src: seq<byte>, i: nat, find: byte): (p: nat)
    requires i <= |src|
    ensures i <= p
  {
    if i == 0 then 0 else Reach(src, i - 1, find) + (if src[i - 1] == find then 2 else 1)
  }

  lemma {:induction false} ReachTail(src: seq<byte>, i: nat, find: byte)
    requires 0 < i <= |src|
    ensures Reach(src, i, find) == (if src[0] == find then 2 else 1) + Reach(src[1..], i - 1, find)
  {
    if i > 1 {
      ReachTail(src, i - 1, find);
    }
  }

  /** Element i of the list and the insertion after it stand where the elements before it end. */
  lemma {:induction false} InsertedAt(src: seq<byte>, i: nat, find: byte, add: byte)
    requires i < |src|
    ensures var p := Reach(src, i, find);
            && Reach(src, i + 1, find) <= |Inserted(src, find, add)|
            && Inserted(src, find, add)[p] == src[i]
            && (src[i] == find ==> Inserted(src, find, add)[p + 1] == add)
  {
    ReachTail(src, i + 1, find);
    if i > 0 {
      ReachTail(src, i, find);
      InsertedAt(src[1..], i - 1, find, add);
    }
  }

  lemma {:induction false} InsertedReach(src: seq<byte>, find: byte, add: byte)
    ensures |Inserted(src, find, add)| == Reach(src, |src|, find)
  {
    if |src| > 0 {
      InsertedReach(src[1..], find, add);
      ReachTail(src, |src|, find);
    }
  }

  /** mem_insert: writes the list with its insertions at `at`, cut off after max bytes. */
  method MemInsert(dst: array<byte>, at: nat, src: seq<byte>, find: byte, add: byte, max: nat) returns (k: nat)
    requires at + max <= dst.Length
    modifies dst
    ensures k == if |Inserted(src, find, add)| < max then |Inserted(src, find, add)| else max
    ensures forall j :: 0 <= j < k ==> dst[at + j] == Inserted(src, find, add)[j]
    ensures forall j :: 0 <= j < dst.Length && !(at <= j < at + k) ==> dst[j] == old(dst[j])
  {
    ghost var all := Inserted(src, find, add);
    InsertedReach(src, find, add);
    var i, left := 0, max;
    k := 0;
    while i < |src| && left > 0 && k < max
      invariant 0 <= i <= |src| && left == max - i && i <= k <= max
      invariant k == Reach(src, i, find) <= |all|
      invariant forall j :: 0 <= j < k ==> dst[at + j] == all[j]
      invariant forall j :: 0 <= j < dst.Length && !(at <= j < at + k) ==> dst[j] == old(dst[j])
    {
      InsertedAt(src, i, find, add);
      left := left - 1;
      dst[at + k] := src[i];
      k := k + 1;
      if src[i] == find {
        if k >= max {
          return;
        }
        dst[at + k] := add;
        k := k + 1;
      }
      i := i + 1;
    }
  }

  // ------------------------------------------------------------------ the frame

  /** What a client reads from a status frame. */
  datatype Status = Status(
    header: seq<byte>, properties: seq<byte>, device: seq<byte>, classes: seq<byte>,
    grantedKeys: byte, kexFail: byte, dsk: seq<byte>)

  /** nodeInfoLength counts itself, two property bytes, three device class bytes and the classes; keys, KEX
      failure, and for NODE_ADD_STATUS the DSK with its length, follow. */
  function Parse(frame: seq<byte>): Option<Status> {
    if |frame| < CLASSES_AT then None
    else
      var end := LENGTH_AT + frame[LENGTH_AT] as nat;
      if end < CLASSES_AT || |frame| < end + 2 then None
      else
        var dskAt := if frame[1] == NODE_ADD_STATUS then end + 3 else end + 2;
        var dskLength := if dskAt == end + 3 && |frame| > end + 2 then frame[end + 2] as nat else 0;
        if |frame| != dskAt + dskLength then None
        else Some(Status(frame[..LENGTH_AT], frame[7..9], frame[9..CLASSES_AT], frame[CLASSES_AT..end],
                         frame[end], frame[end + 1], frame[dskAt..]))
  }

  lemma ParseIs(frame: seq<byte>, end: nat, st: Status)
    requires CLASSES_AT <= end && end + 2 <= |frame| && frame[LENGTH_AT] as nat == end - LENGTH_AT
    requires st.header == frame[..LENGTH_AT] && st.properties == frame[7..9] && st.device == frame[9..CLASSES_AT]
    requires st.classes == frame[CLASSES_AT..end] && st.grantedKeys == frame[end] && st.kexFail == frame[end + 1]
    requires frame[1] == NODE_ADD_STATUS ==>
               |frame| == end + 3 + |st.dsk| && frame[end + 2] as nat == |st.dsk| && frame[end + 3..] == st.dsk
    requires frame[1] != NODE_ADD_STATUS ==> |frame| == end + 2 && st.dsk == []
    ensures Parse(frame) == Some(st)
  {
    assert frame[1] != NODE_ADD_STATUS ==> frame[end + 2..] == [];
  }

  /** How many command class bytes fit beside the trailer. */
  function MaxClasses(cmd: byte, reportDsk: bool): nat {
    if reportDsk && cmd == NODE_ADD_STATUS then BUFFER - CLASSES_AT - (3 + DSK) else BUFFER - CLASSES_AT - 3
  }

  /** The class list a client should see: the node's classes with the gateway's IP association after each
      association class, as far as they fit. */
  function Shown(info: seq<byte>, max: nat): (r: seq<byte>)
    requires |info| >= 2
    ensures |r| <= max
  {
    var all := Inserted(info[2..], ASSOCIATION, IP_ASSOCIATION);
    if |all| <= max then all else all[..max]
  }

  lemma {:induction false} CutDropped(src: seq<byte>, find: byte, add: byte, n: nat)
    requires n <= |Inserted(src, find, add)|
    ensures Dropped(Inserted(src, find, add)[..n], find) <= src
  {
    if n > 0 {
      var all, rest := Inserted(src, find, add), Inserted(src[1..], find, add);
      if src[0] != find {
        CutDropped(src[1..], find, add, n - 1);
        assert all[..n] == [src[0]] + rest[..n - 1] && all[..n][1..] == rest[..n - 1];
      } else if n == 1 {
        assert all[..n] == [find];
        assert [find][1..] == [];
      } else {
        CutDropped(src[1..], find, add, n - 2);
        assert all[..n] == [find, add] + rest[..n - 2] && all[..n][2..] == rest[..n - 2];
      }
    }
  }

  /** Leaving out what follows each association class gives back the node's own classes from the start, all of them
      if the list with its insertions fits; and the list is cut only if it has to be. */
  lemma ShownRecovers(info: seq<byte>, max: nat)
    requires |info| >= 2
    ensures Dropped(Shown(info, max), ASSOCIATION) <= info[2..]
    ensures |Shown(info, max)| < max ==> Dropped(Shown(info, max), ASSOCIATION) == info[2..]
    ensures Reach(info[2..], |info| - 2, ASSOCIATION) <= max ==> Dropped(Shown(info, max), ASSOCIATION) == info[2..]
    ensures |Shown(info, max)| == var all := Reach(info[2..], |info| - 2, ASSOCIATION); if all <= max then all else max
  {
    var all := Inserted(info[2..], ASSOCIATION, IP_ASSOCIATION);
    InsertedDropped(info[2..], ASSOCIATION, IP_ASSOCIATION);
    InsertedReach(info[2..], ASSOCIATION, IP_ASSOCIATION);
    CutDropped(info[2..], ASSOCIATION, IP_ASSOCIATION, |Shown(info, max)|);
    assert all[..|all|] == all;
  }

  /** Each class stands where the classes and insertions before it end, and IP association behind each association
      class, as far as they fit. */
  lemma ShownAt(info: seq<byte>, max: nat, i: nat)
    requires |info| >= 2 && i < |info| - 2
    ensures var p := Reach(info[2..], i, ASSOCIATION);
            && (p < max ==> p < |Shown(info, max)| && Shown(info, max)[p] == info[2 + i])
            && (p + 1 < max && info[2 + i] == 0x85 ==>
                p + 1 < |Shown(info, max)| && Shown(info, max)[p + 1] == 0x5C)
  {
    InsertedAt(info[2..], i, ASSOCIATION, IP_ASSOCIATION);
  }

  /** Writes the trailer behind the first n bytes. The guard of the source that would move the DSK back never
      applies: the DSK always fits. */
  method PutTrailer(buf: array<byte>, n0: nat, keys: byte, kex: byte, reportDsk: bool, dsk: seq<byte>) returns (n: nat)
    requires buf.Length == BUFFER && |dsk| == DSK
    requires CLASSES_AT <= n0 <= CLASSES_AT + MaxClasses(buf[1], reportDsk)
    modifies buf
    ensures n <= BUFFER
    ensures n == n0 + 2 + (if buf[1] != NODE_ADD_STATUS then 0 else if reportDsk then 1 + DSK else 1)
    ensures forall j :: 0 <= j < n0 ==> buf[j] == old(buf[j])
    ensures buf[n0] == keys && buf[n0 + 1] == kex
    ensures buf[1] == NODE_ADD_STATUS ==> buf[n0 + 2] == if reportDsk then DSK as byte else 0
    ensures buf[1] == NODE_ADD_STATUS && reportDsk ==> forall j :: 0 <= j < DSK ==> buf[n0 + 3 + j] == dsk[j]
  {
    buf[n0] := keys;
    buf[n0 + 1] := kex;
    n := n0 + 2;
    if buf[1] == NODE_ADD_STATUS {
      if reportDsk {
        assert n <= BUFFER - (1 + DSK);
        buf[n] := DSK as byte;
        n := n + 1;
        forall j | 0 <= j < DSK {
          buf[n + j] := dsk[j];
        }
        n := n + DSK;
      } else {
        buf[n] := 0;
        n := n + 1;
      }
    }
  }

  /** The part up to the trailer: the device and class bytes of a node whose interview succeeded, or none. */
  method PutNodeInfo(buf: array<byte>, probed: bool, basic: byte, info: seq<byte>, max: nat) returns (n: nat)
    requires buf.Length == BUFFER && max <= BUFFER - CLASSES_AT - 3
    requires probed ==> 2 <= |info| <= 2 + max
    modifies buf
    ensures n == CLASSES_AT + (if probed then |Shown(info, max)| else 0)
    ensures buf[LENGTH_AT] as nat == n - LENGTH_AT
    ensures forall j :: 0 <= j < 9 && j != LENGTH_AT ==> buf[j] == old(buf[j])
    ensures probed ==> buf[9] == basic && buf[10] == info[0] && buf[11] == info[1]
    ensures !probed ==> forall j :: 9 <= j < CLASSES_AT ==> buf[j] == old(buf[j])
    ensures probed ==> forall j :: 0 <= j < |Shown(info, max)| ==> buf[CLASSES_AT + j] == Shown(info, max)[j]
  {
    if probed {
      buf[9] := basic;
      buf[10] := info[0];
      buf[11] := info[1];
      var k := MemInsert(buf, CLASSES_AT, info[2..], ASSOCIATION, IP_ASSOCIATION, max);
      buf[LENGTH_AT] := (k + 6) as byte;
      n := k + 6;
    } else {
      buf[LENGTH_AT] := 6;
      n := 6;
    }
    n := n + 6;
  }

  /** The frame fits its buffer for every interview result that passes the length check, and a client reads
      back exactly what went in. */
  method Assemble(buf: array<byte>, probed: bool, basic: byte, info: seq<byte>, keys: byte, kex: byte,
                  reportDsk: bool, dsk: seq<byte>) returns (n: nat)
    requires buf.Length == BUFFER && |dsk| == DSK
    requires probed ==> 2 <= |info| <= 2 + MaxClasses(buf[1], reportDsk)
    modifies buf
    ensures n <= BUFFER
    ensures Parse(buf[..n]) == Some(Status(
              old(buf[..LENGTH_AT]), old(buf[7..9]),
              if probed then [basic, info[0], info[1]] else old(buf[9..CLASSES_AT]),
              if probed then Shown(info, MaxClasses(old(buf[1]), reportDsk)) else [],
              keys, kex, if reportDsk && old(buf[1]) == NODE_ADD_STATUS then dsk else []))
    ensures n == BUFFER <==>
              && probed && old(buf[1]) == NODE_ADD_STATUS
              && |Shown(info, MaxClasses(old(buf[1]), reportDsk))| == MaxClasses(old(buf[1]), reportDsk)
  {
    var end := PutNodeInfo(buf, probed, basic, info, MaxClasses(buf[1], reportDsk));
    n := PutTrailer(buf, end, keys, kex, reportDsk, dsk);
    ghost var frame := buf[..n];
    ghost var st := Status(
      old(buf[..LENGTH_AT]), old(buf[7..9]), if probed then [basic, info[0], info[1]] else old(buf[9..CLASSES_AT]),
      if probed then Shown(info, MaxClasses(old(buf[1]), reportDsk)) else [],
      keys, kex, if reportDsk && old(buf[1]) == NODE_ADD_STATUS then dsk else []);
    assert st.classes == frame[CLASSES_AT..end];
    assert st.dsk == if frame[1] == NODE_ADD_STATUS then frame[end + 3..] else [];
    ParseIs(frame, end, st);
  }
}
