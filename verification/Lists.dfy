/** The contiki list operations the gateway's tables are built on, as functions on sequences,
    with the laws their users need. */
module Lists {

  ghost predicate Distinct<T>(s: seq<T>) {
    forall i, j :: 0 <= i < j < |s| ==> s[i] != s[j]
  }

  /** list_remove: unlinks the first occurrence. */
  function Unlink<T(==)>(s: seq<T>, x: T): seq<T> {
    if s == [] then [] else if s[0] == x then s[1..] else [s[0]] + Unlink(s[1..], x)
  }

  /** The elements that satisfy p, in order. */
  function Where<T>(s: seq<T>, p: T -> bool): seq<T> {
    if |s| == 0 then [] else if p(s[0]) then [s[0]] + Where(s[1..], p) else Where(s[1..], p)
  }

  /** The elements of s that lie in m, in order. */
  function Within<T(==)>(s: seq<T>, m: set<T>): seq<T> {
    Where(s, (x: T) => x in m)
  }

  /** The elements of s that do not lie in m, in order. */
  function Outside<T(==)>(s: seq<T>, m: set<T>): seq<T> {
    Where(s, (x: T) => x !in m)
  }

  lemma {:induction false} WhereAppend<T>(a: seq<T>, b: seq<T>, p: T -> bool)
    ensures Where(a + b, p) == Where(a, p) + Where(b, p)
  {
    if |a| == 0 {
      assert a + b == b;
    } else {
      WhereAppend(a[1..], b, p);
      assert (a + b)[1..] == a[1..] + b && (a + b)[0] == a[0];
      var front, back := Where(a[1..], p), Where(b, p);
      assert [a[0]] + (front + back) == ([a[0]] + front) + back;
    }
  }

  lemma WhereOne<T>(x: T, p: T -> bool)
    ensures Where([x], p) == if p(x) then [x] else []
  {
    assert |[x][1..]| == 0;
    assert Where([x][1..], p) == [];
  }

  lemma {:induction false} WhereNone<T>(s: seq<T>, p: T -> bool)
    requires forall i :: 0 <= i < |s| ==> !p(s[i])
    ensures Where(s, p) == []
  {
    if |s| > 0 {
      WhereNone(s[1..], p);
    }
  }

  lemma {:induction false} WhereAll<T>(s: seq<T>, p: T -> bool)
    requires forall i :: 0 <= i < |s| ==> p(s[i])
    ensures Where(s, p) == s
  {
    if |s| > 0 {
      WhereAll(s[1..], p);
    }
  }

  /** x is the first element of s that lies in m. */
  ghost predicate FirstIn<T>(s: seq<T>, m: set<T>, x: T) {
    x in m && exists k: nat :: k < |s| && s[k] == x && forall j :: 0 <= j < k ==> s[j] !in m
  }

  lemma {:induction false} UnlinkAt<T>(s: seq<T>, k: nat)
    requires k < |s| && s[k] !in s[..k]
    ensures Unlink(s, s[k]) == s[..k] + s[k + 1..]
  {
    if k == 0 {
    } else {
      assert s[1..][k - 1] == s[k] && s[1..][..k - 1] == s[1..k];
      UnlinkAt(s[1..], k - 1);
      assert s[0] in s[..k];
      assert [s[0]] + (s[1..k] + s[k + 1..]) == s[..k] + s[k + 1..];
    }
  }

  lemma {:induction false} UnlinkElements<T>(s: seq<T>, x: T)
    requires Distinct(s) && x in s
    ensures Distinct(Unlink(s, x)) && |Unlink(s, x)| == |s| - 1
    ensures forall y :: y in Unlink(s, x) <==> y in s && y != x
  {
    var k :| 0 <= k < |s| && s[k] == x;
    UnlinkAt(s, k);
    var t := s[..k] + s[k + 1..];
    forall y ensures y in t <==> y in s && y != x {
      if y in s && y != x {
        var j :| 0 <= j < |s| && s[j] == y;
        assert t[if j < k then j else j - 1] == y;
      }
    }
  }

  lemma {:induction false} OutsideUnlink<T>(s: seq<T>, x: T, m: set<T>)
    requires x in m
    ensures Outside(Unlink(s, x), m) == Outside(s, m)
  {
    if s != [] && s[0] != x {
      var t := Unlink(s[1..], x);
      OutsideUnlink(s[1..], x, m);
      assert ([s[0]] + t)[1..] == t;
    }
  }

  lemma {:induction false} WithinUnlinkAt<T>(s: seq<T>, k: nat, m: set<T>)
    requires k < |s| && s[k] in m && forall j :: 0 <= j < k ==> s[j] !in m
    ensures Within(s, m) == [s[k]] + Within(Unlink(s, s[k]), m)
  {
    if k > 0 {
      var t := Unlink(s[1..], s[k]);
      WithinUnlinkAt(s[1..], k - 1, m);
      assert ([s[0]] + t)[1..] == t;
    }
  }

  /** Unlinking the first member of m takes exactly the head off the members of m and nothing else. */
  lemma WithinUnlinkFirst<T>(s: seq<T>, m: set<T>, x: T)
    requires FirstIn(s, m, x)
    ensures Within(s, m) == [x] + Within(Unlink(s, x), m)
    ensures Outside(Unlink(s, x), m) == Outside(s, m)
  {
    var k: nat :| k < |s| && s[k] == x && forall j :: 0 <= j < k ==> s[j] !in m;
    WithinUnlinkAt(s, k, m);
    OutsideUnlink(s, x, m);
  }

  lemma {:induction false} WithinElements<T>(s: seq<T>, m: set<T>)
    ensures forall x :: x in Within(s, m) <==> x in s && x in m
    ensures Within(s, m) == [] ==> Outside(s, m) == s
    ensures Distinct(s) ==> Distinct(Within(s, m))
  {
    if s != [] {
      WithinElements(s[1..], m);
      assert s == [s[0]] + s[1..];
    }
  }

  lemma {:induction false} WithinAt<T>(s: seq<T>, m: set<T>, i: nat)
    requires i < |Within(s, m)|
    ensures Within(s, m)[i] in s && Within(s, m)[i] in m
  {
    var rest := Within(s[1..], m);
    if s[0] !in m {
      WithinAt(s[1..], m, i);
      assert rest[i] in s[1..];
    } else if i > 0 {
      WithinAt(s[1..], m, i - 1);
      assert rest[i - 1] in s[1..];
    }
  }

  lemma {:induction false} OutsideElements<T>(s: seq<T>, m: set<T>)
    ensures forall x :: x in Outside(s, m) <==> x in s && x !in m
  {
    if s != [] {
      OutsideElements(s[1..], m);
      assert s == [s[0]] + s[1..];
    }
  }

  lemma {:induction false} WithinShorter<T>(s: seq<T>, m: set<T>)
    ensures |Within(s, m)| <= |s|
  {
    if s != [] {
      WithinShorter(s[1..], m);
    }
  }

  lemma {:induction false} SplitLength<T>(s: seq<T>, m: set<T>)
    ensures |Within(s, m)| + |Outside(s, m)| == |s|
  {
    if s != [] {
      SplitLength(s[1..], m);
    }
  }

  lemma WithinSnoc<T>(s: seq<T>, x: T, m: set<T>)
    ensures Within(s + [x], m) == Within(s, m) + if x in m then [x] else []
  {
    WhereAppend(s, [x], (y: T) => y in m);
    WhereOne(x, (y: T) => y in m);
  }

  lemma {:induction false} HeadIsFirst<T>(s: seq<T>, m: set<T>)
    requires Within(s, m) != []
    ensures FirstIn(s, m, Within(s, m)[0])
  {
    if s[0] in m {
      assert s[0] == Within(s, m)[0];
    } else {
      HeadIsFirst(s[1..], m);
      var x := Within(s, m)[0];
      assert x == Within(s[1..], m)[0];
      var k: nat :| k < |s[1..]| && s[1..][k] == x && forall j :: 0 <= j < k ==> s[1..][j] !in m;
      assert s[k + 1] == x;
      forall j | 0 <= j < k + 1 ensures s[j] !in m {
        if j > 0 { assert s[j] == s[1..][j - 1]; }
      }
    }
  }
}
