/** The message queue of a topic: a singly linked list with a head and a tail pointer. */
module MessageQueue {
  import opened Options

  class Node {
    const message: string
    var next: Node?
    ghost const owner: Queue   // the queue that allocated the node; queues do not share nodes

    constructor (message: string, ghost owner: Queue)
      ensures this.message == message && next == null && this.owner == owner
    {
      this.message := message;
      this.owner := owner;
      next := null;
    }
  }

  /** The node at index `k`, or null past the end. */
  function At(spine: seq<Node>, k: nat): Node? {
    if k < |spine| then spine[k] else null
  }

  class Queue {
    var head: Node?
    var tail: Node?
    ghost var spine: seq<Node>        // the nodes in the queue, which are the ones not freed
    ghost var contents: seq<string>   // their messages

    /** `head` starts the chain of nodes in the queue and `tail` is its last node.  When the queue
        is empty nothing is said of `tail`: it still points to the node freed last. */
    ghost predicate Valid()
      reads this, spine
    {
      && |spine| == |contents|
      && (forall i :: 0 <= i < |spine| ==> spine[i].message == contents[i] && spine[i].owner == this)
      && (forall i {:trigger spine[i].next} :: 0 <= i < |spine| ==> spine[i].next == At(spine, i + 1))
      && head == At(spine, 0)
      && (spine != [] ==> tail == spine[|spine| - 1])
    }

    /** The chain ends, so its last node is in it once. */
    lemma {:induction false} LastOnce(i: nat)
      requires Valid() && i + 1 < |spine|
      ensures spine[i] != spine[|spine| - 1]
    {
      assert spine[i].next == At(spine, i + 1) && spine[|spine| - 1].next == At(spine, |spine|);
    }

    constructor ()
      ensures Valid() && contents == []
    {
      head, tail := null, null;
      spine, contents := [], [];
    }

    method EnqueueUnsafe(message: string)
      requires Valid()
      modifies this, spine`next
      ensures Valid()
      ensures contents == old(contents) + [message]
      ensures spine[..|spine| - 1] == old(spine) && fresh(spine[|spine| - 1])
    {
      if head == null {
        head := new Node(message, this);
        tail := head;
        spine := [head];
      } else {
        assert tail in spine;
        forall i | 0 <= i < |spine| - 1 ensures spine[i] != tail {
          LastOnce(i);
        }
        var node := new Node(message, this);
        tail.next := node;
        tail := tail.next;
        spine := spine + [node];
      }
      contents := contents + [message];
    }

    /** The first message, or `None` for the null pointer that an empty queue yields. */
    method DequeueUnsafe() returns (first: Option<string>)
      requires Valid()
      modifies this
      ensures Valid()
      ensures if old(contents) == [] then first == None && contents == [] && spine == old(spine)
              else first == Some(old(contents)[0]) && contents == old(contents)[1..] && spine == old(spine)[1..]
      // emptying the queue leaves `tail` on a node that is no longer in it
      ensures tail == old(tail)
      ensures old(contents) != [] && contents == [] ==> tail == old(head) && tail !in spine
    {
      if head == null {
        return None;
      }
      assert head in spine;
      first := Some(head.message);
      head := head.next;
      ghost var was := spine;
      spine, contents := spine[1..], contents[1..];
      assert forall i :: 0 <= i < |spine| ==> spine[i] == was[i + 1];
    }
  }

  datatype Op = Enqueue(message: string) | Dequeue

  /** A queue of messages under a run of the two operations: `.0` is what is left and `.1` what each
      `Dequeue` yields. */
  ghost function Replay(q: seq<string>, ops: seq<Op>): (seq<string>, seq<Option<string>>)
    decreases |ops|
  {
    if ops == [] then (q, [])
    else
      var before := Replay(q, ops[..|ops| - 1]);
      match ops[|ops| - 1]
      case Enqueue(m) => (before.0 + [m], before.1)
      case Dequeue =>
        if before.0 == [] then (before.0, before.1 + [None]) else (before.0[1..], before.1 + [Some(before.0[0])])
  }

  ghost function Enqueued(ops: seq<Op>): seq<string>
    decreases |ops|
  {
    if ops == [] then []
    else Enqueued(ops[..|ops| - 1]) + if ops[|ops| - 1].Enqueue? then [ops[|ops| - 1].message] else []
  }

  /** The messages among what the dequeues yield. */
  ghost function Handed(out: seq<Option<string>>): seq<string> {
    if out == [] then []
    else Handed(out[..|out| - 1]) + if out[|out| - 1].Some? then [out[|out| - 1].value] else []
  }

  /** First in, first out: what is handed out, then what is left, is what was there, then what was
      added. */
  lemma {:induction false} ReplayIsFifo(q: seq<string>, ops: seq<Op>)
    ensures Handed(Replay(q, ops).1) + Replay(q, ops).0 == q + Enqueued(ops)
    decreases |ops|
  {
    if ops == [] {
      assert q + [] == q;
    } else {
      var front := ops[..|ops| - 1];
      ReplayIsFifo(q, front);
      var before := Replay(q, front);
      if ops[|ops| - 1].Enqueue? {
        Append(Handed(before.1), before.0, q, Enqueued(front), [ops[|ops| - 1].message]);
      } else if before.0 != [] {
        HandedSnoc(before.1, Some(before.0[0]));
        MoveFirst(Handed(before.1), before.0);
      } else {
        HandedSnoc(before.1, None);
      }
    }
  }

  lemma HandedSnoc(out: seq<Option<string>>, o: Option<string>)
    ensures Handed(out + [o]) == if o.Some? then Handed(out) + [o.value] else Handed(out)
  {
    assert (out + [o])[..|out|] == out;
  }

  lemma Append<T>(a: seq<T>, b: seq<T>, q: seq<T>, e: seq<T>, x: seq<T>)
    requires a + b == q + e
    ensures a + (b + x) == q + (e + x)
  {
    assert a + (b + x) == (a + b) + x;
  }

  lemma MoveFirst<T>(a: seq<T>, b: seq<T>)
    requires b != []
    ensures (a + [b[0]]) + b[1..] == a + b
  {
  }

  /** The nodes in the queue are among `nodes`. */
  ghost predicate Among(q: Queue, nodes: set<Node>)
    reads q
  {
    forall n :: n in q.spine ==> n in nodes
  }

  /** Over every run of operations, by `head`, `tail` and the `next` fields, the linked queue yields
      exactly what a mathematical queue does, and so is first in, first out, though each time it
      empties its tail is left stale. */
  method RunOps(q: Queue, ops: seq<Op>, ghost nodes: set<Node>) returns (out: seq<Option<string>>)
    requires q.Valid() && Among(q, nodes)
    modifies q, nodes`next
    ensures q.Valid()
    ensures (q.contents, out) == Replay(old(q.contents), ops)
    ensures Handed(out) + q.contents == old(q.contents) + Enqueued(ops)
  {
    out := [];
    ghost var was, nodes' := q.contents, nodes;
    for i := 0 to |ops|
      invariant q.Valid() && (q.contents, out) == Replay(was, ops[..i])
      invariant Among(q, nodes') && nodes <= nodes' && fresh(nodes' - nodes)
    {
      assert ops[..i + 1][..i] == ops[..i];
      out, nodes' := RunOp(q, ops[i], out, nodes');
    }
    assert ops[..|ops|] == ops;
    ReplayIsFifo(was, ops);
  }

  method RunOp(q: Queue, op: Op, out: seq<Option<string>>, ghost nodes: set<Node>)
      returns (more: seq<Option<string>>, ghost nodes': set<Node>)
    requires q.Valid() && Among(q, nodes)
    modifies q, nodes`next
    ensures q.Valid() && Among(q, nodes') && nodes <= nodes' && fresh(nodes' - nodes)
    ensures
      var was := old(q.contents);
      match op
      case Enqueue(m) => q.contents == was + [m] && more == out
      case Dequeue =>
        if was == [] then q.contents == was && more == out + [None]
        else q.contents == was[1..] && more == out + [Some(was[0])]
  {
    more, nodes' := out, nodes;
    match op
    case Enqueue(m) =>
      ghost var was := q.spine;
      q.EnqueueUnsafe(m);
      assert q.spine == was + [q.spine[|was|]];
      nodes' := nodes + {q.spine[|was|]};
    case Dequeue =>
      var first := q.DequeueUnsafe();
      more := out + [first];
  }
}
