/** Network management commands for sleeping nodes wait here until the node wakes up
    (src/CC_NetworkManagement_queue.c). The queue is a list of values; every answer the client will see as
    final (ACK or NAK) is written to a book. */
module CommandQueue {
  import opened Lists

  const MAX_QUEUED: nat := 10

  datatype Entry = Entry(node: nat, cmd: nat)

  datatype Outcome = Outcome(entry: Entry, ack: bool)

  /** What the outside has seen: the commands taken into the queue, their final answers, and the node served
      by each start of a command, with 0 where the node was handed on to the mailbox. */
  datatype Book = Book(accepted: seq<Entry>, outcomes: seq<Outcome>, served: seq<nat>)

  /** The entries for one node, in order. */
  function For(q: seq<Entry>, node: nat): seq<Entry> {
    Where(q, (x: Entry) => x.node == node)
  }

  function Others(q: seq<Entry>, node: nat): seq<Entry> {
    Where(q, (x: Entry) => x.node != node)
  }

  function Gone(outcomes: seq<Outcome>): (g: seq<Entry>)
    ensures |g| == |outcomes|
    ensures forall i :: 0 <= i < |g| ==> g[i] == outcomes[i].entry
  {
    seq(|outcomes|, i requires 0 <= i < |outcomes| => outcomes[i].entry)
  }

  function Refused(q: seq<Entry>): (r: seq<Outcome>)
    ensures |r| == |q|
  {
    seq(|q|, i requires 0 <= i < |q| => Outcome(q[i], false))
  }

  lemma ForAppend(a: seq<Entry>, b: seq<Entry>, node: nat)
    ensures For(a + b, node) == For(a, node) + For(b, node)
    ensures Others(a + b, node) == Others(a, node) + Others(b, node)
  {
    WhereAppend(a, b, (x: Entry) => x.node == node);
    WhereAppend(a, b, (x: Entry) => x.node != node);
  }

  lemma ForOne(x: Entry, node: nat)
    ensures For([x], node) == (if x.node == node then [x] else [])
    ensures Others([x], node) == (if x.node == node then [] else [x])
  {
    WhereOne(x, (y: Entry) => y.node == node);
    WhereOne(x, (y: Entry) => y.node != node);
  }

  lemma ForNone(a: seq<Entry>, node: nat)
    requires forall i :: 0 <= i < |a| ==> a[i].node != node
    ensures For(a, node) == [] && Others(a, node) == a
  {
    WhereNone(a, (x: Entry) => x.node == node);
    WhereAll(a, (x: Entry) => x.node != node);
  }

  lemma SplitAt(q: seq<Entry>, i: nat, node: nat)
    requires i < |q|
    ensures For(q, node) == For(q[..i], node) + (For([q[i]], node) + For(q[i + 1..], node))
    ensures Others(q, node) == Others(q[..i], node) + (Others([q[i]], node) + Others(q[i + 1..], node))
  {
    assert q == q[..i] + ([q[i]] + q[i + 1..]);
    ForAppend(q[..i], [q[i]] + q[i + 1..], node);
    ForAppend([q[i]], q[i + 1..], node);
  }

  /** Taking a node's first entry out takes the head of that node's line and leaves every other line. */
  lemma TakeFirst(q: seq<Entry>, i: nat, node: nat)
    requires i < |q| && forall j :: 0 <= j < i ==> q[j].node != q[i].node
    ensures For(q, node) == (if node == q[i].node then [q[i]] else []) + For(q[..i] + q[i + 1..], node)
  {
    var front, back := For(q[..i], node), For(q[i + 1..], node);
    SplitAt(q, i, node);
    ForAppend(q[..i], q[i + 1..], node);
    ForOne(q[i], node);
    if node == q[i].node {
      ForNone(q[..i], node);
      assert front + ([q[i]] + back) == [q[i]] + (front + back);
    } else {
      assert front + ([] + back) == [] + (front + back);
    }
  }

  lemma OthersStay(q: seq<Entry>, i: nat)
    requires i < |q|
    ensures Others(q[..i] + q[i + 1..], q[i].node) == Others(q, q[i].node)
  {
    var n := q[i].node;
    var front, back := Others(q[..i], n), Others(q[i + 1..], n);
    SplitAt(q, i, n);
    ForAppend(q[..i], q[i + 1..], n);
    ForOne(q[i], n);
    assert front + ([] + back) == front + back;
  }

  /** The queue's law, node by node: the final answers given so far and the commands still queued make up,
      in order, the commands accepted. */
  ghost predicate Fifo(q: seq<Entry>, book: Book) {
    forall node: nat :: For(Gone(book.outcomes), node) + For(q, node) == For(book.accepted, node)
  }

  lemma AnswerKeepsFifo(q: seq<Entry>, book: Book, i: nat, ack: bool)
    requires Fifo(q, book)
    requires i < |q| && forall j :: 0 <= j < i ==> q[j].node != q[i].node
    ensures Fifo(q[..i] + q[i + 1..], book.(outcomes := book.outcomes + [Outcome(q[i], ack)]))
  {
    var rest := q[..i] + q[i + 1..];
    var after := book.(outcomes := book.outcomes + [Outcome(q[i], ack)]);
    assert Gone(after.outcomes) == Gone(book.outcomes) + [q[i]];
    forall node: nat ensures For(Gone(after.outcomes), node) + For(rest, node) == For(after.accepted, node) {
      TakeFirst(q, i, node);
      ForAppend(Gone(book.outcomes), [q[i]], node);
      ForOne(q[i], node);
      var gone, head, line := For(Gone(book.outcomes), node), For([q[i]], node), For(rest, node);
      assert gone + (head + line) == (gone + head) + line;
      assert gone + For(q, node) == For(book.accepted, node);
    }
  }

  lemma AcceptKeepsFifo(q: seq<Entry>, book: Book, x: Entry)
    requires Fifo(q, book)
    ensures Fifo(q + [x], book.(accepted := book.accepted + [x]))
  {
    var after := book.(accepted := book.accepted + [x]);
    forall node: nat ensures For(Gone(after.outcomes), node) + For(q + [x], node) == For(after.accepted, node) {
      ForAppend(q, [x], node);
      ForAppend(book.accepted, [x], node);
      assert For(Gone(book.outcomes), node) + For(q, node) == For(book.accepted, node);
    }
  }

  lemma {:induction false} CountInLine(q: seq<Entry>, x: Entry)
    ensures multiset(q)[x] == multiset(For(q, x.node))[x]
  {
    if |q| > 0 {
      CountInLine(q[1..], x);
      assert q == [q[0]] + q[1..];
    }
  }

  /** Conservation: each accepted command has exactly one final answer or is still queued, never both. */
  lemma FifoConserves(q: seq<Entry>, book: Book)
    requires Fifo(q, book)
    ensures multiset(book.accepted) == multiset(Gone(book.outcomes)) + multiset(q)
  {
    forall x: Entry
      ensures multiset(book.accepted)[x] == multiset(Gone(book.outcomes))[x] + multiset(q)[x]
    {
      CountInLine(book.accepted, x);
      CountInLine(Gone(book.outcomes), x);
      CountInLine(q, x);
      assert For(Gone(book.outcomes), x.node) + For(q, x.node) == For(book.accepted, x.node);
    }
  }

  /** Two commands started one after the other, with no hand-over in between, are for the same node. */
  predicate OneAtATime(served: seq<nat>) {
    forall i :: 0 < i < |served| && served[i] != 0 && served[i - 1] != 0 ==> served[i] == served[i - 1]
  }

  class NmQueue {
    var queue: seq<Entry>
    var current: nat
    ghost var book: Book

    ghost predicate Valid()
      reads this
    {
      && |queue| <= MAX_QUEUED
      && (forall i :: 0 <= i < |queue| ==> queue[i].node != 0)
      && |book.accepted| == |book.outcomes| + |queue|
      && Fifo(queue, book)
      && OneAtATime(book.served)
      && current == (if |book.served| == 0 then 0 else book.served[|book.served| - 1])
    }

    constructor ()
      ensures Valid() && queue == [] && current == 0
    {
      queue := [];
      current := 0;
      book := Book([], [], []);
    }

    method QueueCommand(node: nat, cmd: nat) returns (queued: bool)
      requires Valid() && node != 0
      modifies this
      ensures Valid()
      ensures queued <==> |old(queue)| < MAX_QUEUED
      ensures queued ==> queue == old(queue) + [Entry(node, cmd)]
      ensures queued ==> book == old(book).(accepted := old(book.accepted) + [Entry(node, cmd)])
      ensures !queued ==> queue == old(queue) && book == old(book)
      ensures current == old(current)
    {
      if |queue| == MAX_QUEUED {
        return false;
      }
      AcceptKeepsFifo(queue, book, Entry(node, cmd));
      queue := queue + [Entry(node, cmd)];
      book := book.(accepted := book.accepted + [Entry(node, cmd)]);
      return true;
    }

    method FindElement(node: nat) returns (found: bool, i: nat)
      ensures found ==> i < |queue| && queue[i].node == node && forall j :: 0 <= j < i ==> queue[j].node != node
      ensures !found ==> forall j :: 0 <= j < |queue| ==> queue[j].node != node
    {
      i := 0;
      while i < |queue|
        invariant i <= |queue| && forall j :: 0 <= j < i ==> queue[j].node != node
      {
        if queue[i].node == node {
          return true, i;
        }
        i := i + 1;
      }
      return false, 0;
    }

    method RemoveElement(i: nat, ack: bool)
      requires Valid() && i < |queue| && forall j :: 0 <= j < i ==> queue[j].node != queue[i].node
      modifies this
      ensures Valid() && current == old(current)
      ensures queue == old(queue)[..i] + old(queue)[i + 1..]
      ensures book == old(book).(outcomes := old(book.outcomes) + [Outcome(old(queue)[i], ack)])
    {
      AnswerKeepsFifo(queue, book, i, ack);
      book := book.(outcomes := book.outcomes + [Outcome(queue[i], ack)]);
      queue := queue[..i] + queue[i + 1..];
    }

    method PurgeAll()
      requires Valid()
      modifies this
      ensures Valid() && queue == [] && current == old(current)
      ensures book == old(book).(outcomes := old(book.outcomes) + Refused(old(queue)))
    {
      ghost var was, done := queue, 0;
      while |queue| > 0
        invariant Valid() && current == old(current)
        invariant 0 <= done <= |was| && queue == was[done..]
        invariant book == old(book).(outcomes := old(book.outcomes) + Refused(was[..done]))
        decreases |queue|
      {
        RemoveElement(0, false);
        assert Refused(was[..done + 1]) == Refused(was[..done]) + [Outcome(was[done], false)];
        done := done + 1;
      }
      assert was[..done] == was;
    }

    /** Refuses exactly the node's commands, in their order, and leaves the others in theirs. */
    method PurgeNode(node: nat)
      requires Valid()
      modifies this
      ensures Valid() && current == old(current)
      ensures queue == Others(old(queue), node)
      ensures book == old(book).(outcomes := old(book.outcomes) + Refused(For(old(queue), node)))
    {
      var found: bool, i: nat;
      found, i := FindElement(node);
      ghost var gone: seq<Entry> := [];
      while found
        invariant Valid() && current == old(current)
        invariant found ==> i < |queue| && queue[i].node == node && forall j :: 0 <= j < i ==> queue[j].node != node
        invariant !found ==> forall j :: 0 <= j < |queue| ==> queue[j].node != node
        invariant Others(queue, node) == Others(old(queue), node)
        invariant gone + For(queue, node) == For(old(queue), node)
        invariant book == old(book).(outcomes := old(book.outcomes) + Refused(gone))
        decreases |queue|
      {
        TakeFirst(queue, i, node);
        OthersStay(queue, i);
        ghost var x := queue[i];
        RemoveElement(i, false);
        assert Refused(gone + [x]) == Refused(gone) + [Outcome(x, false)];
        gone := gone + [x];
        found, i := FindElement(node);
      }
      ForNone(queue, node);
      assert gone == For(old(queue), node);
    }

    /** Starts the node's oldest command if no other node is being served and the handler takes it. */
    method WakeupEvent(node: nat, busy: bool) returns (started: bool)
      requires Valid() && node != 0
      modifies this
      ensures Valid()
      ensures started <==> !busy && (old(current) == 0 || old(current) == node) && For(old(queue), node) != []
      ensures started ==> current == node && book.served == old(book.served) + [node]
      ensures started ==> book.accepted == old(book.accepted)
      ensures started ==> book.outcomes == old(book.outcomes) + [Outcome(For(old(queue), node)[0], true)]
      ensures started ==> Others(queue, node) == Others(old(queue), node)
      ensures started ==> For(queue, node) == For(old(queue), node)[1..]
      ensures !started ==> queue == old(queue) && current == old(current) && book == old(book)
    {
      var found, i := FindElement(node);
      if !found {
        ForNone(queue, node);
        return false;
      }
      TakeFirst(queue, i, node);
      OthersStay(queue, i);
      if (current != 0 && current != node) || busy {
        return false;
      }
      current := node;
      book := book.(served := book.served + [node]);
      RemoveElement(i, true);
      return true;
    }

    /** Network management finished a command: start the same node's next one, or hand the node on to the mailbox
        if there is none or it is not taken. */
    method NmDoneEvent(busy: bool) returns (handedOn: nat)
      requires Valid()
      modifies this
      ensures Valid()
      ensures handedOn == if old(current) != 0 && current == 0 then old(current) else 0
      ensures old(current) != 0 && !busy && For(old(queue), old(current)) != [] ==>
        && current == old(current)
        && For(queue, current) == For(old(queue), current)[1..] && Others(queue, current) == Others(old(queue), current)
        && book == old(book).(served := old(book.served) + [current],
                              outcomes := old(book.outcomes) + [Outcome(For(old(queue), current)[0], true)])
      ensures old(current) != 0 && (busy || For(old(queue), old(current)) == []) ==>
        && current == 0 && queue == old(queue) && book == old(book).(served := old(book.served) + [0])
      ensures old(current) == 0 ==> queue == old(queue) && book == old(book) && current == 0
    {
      handedOn := 0;
      if current != 0 {
        var done := current;
        var started := WakeupEvent(done, busy);
        if !started {
          current := 0;
          book := book.(served := book.served + [0]);
          handedOn := done;
        }
      }
    }
  }
}
