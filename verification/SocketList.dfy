/** The socket list: a singly linked list of pointers to sockets, with a cached size. */
module SocketList {
  import opened Sequences

  /** A socket variable.  Its address is what the lists hold and compare, and its handle becomes
      `INVALID` when the connection is closed. */
  class Socket {
    var handle: int

    constructor (handle: int)
      ensures this.handle == handle
    {
      this.handle := handle;
    }
  }

  const INVALID: int := -1

  class Node {
    const socket: Socket
    var next: Node?
    ghost const owner: List   // the list that allocated the node; lists do not share nodes

    constructor (socket: Socket, next: Node?, ghost owner: List)
      ensures this.socket == socket && this.next == next && this.owner == owner
    {
      this.socket := socket;
      this.next := next;
      this.owner := owner;
    }
  }

  /** The node at index `k`, or null past the end. */
  function At(spine: seq<Node>, k: nat): Node? {
    if k < |spine| then spine[k] else null
  }

  class List {
    var head: Node?
    var size: int
    ghost var spine: seq<Node>       // the nodes in the list, which are the ones not freed
    ghost var contents: seq<Socket>  // their sockets

    ghost predicate Valid()
      reads this, spine
    {
      && |spine| == |contents| == size
      && (forall i :: 0 <= i < |spine| ==> spine[i].socket == contents[i] && spine[i].owner == this)
      && (forall i {:trigger spine[i].next} :: 0 <= i < |spine| ==> spine[i].next == At(spine, i + 1))
      && head == At(spine, 0)
    }

    /** The chain ends, so no node is in it twice. */
    lemma NodesDiffer()
      requires Valid()
      ensures NoRepeats(spine)
    {
      forall i, j | 0 <= i < j < |spine| ensures spine[i] != spine[j] {
        NodesDifferAt(i, j);
      }
    }

    lemma {:induction false} NodesDifferAt(i: nat, j: nat)
      requires Valid() && i < j < |spine|
      ensures spine[i] != spine[j]
      decreases |spine| - j
    {
      assert spine[i].next == At(spine, i + 1) && spine[j].next == At(spine, j + 1);
      if j + 1 < |spine| {
        NodesDifferAt(i + 1, j + 1);
      }
    }

    constructor ()
      ensures Valid() && contents == []
    {
      head, size := null, 0;
      spine, contents := [], [];
    }

    method AddToStart(socket: Socket)
      requires Valid()
      modifies this
      ensures Valid()
      ensures contents == [socket] + old(contents)
      ensures |spine| > 0 && fresh(spine[0]) && spine[1..] == old(spine)
    {
      var oldHead := head;
      head := new Node(socket, oldHead, this);
      size := size + 1;
      ghost var was := spine;
      spine, contents := [head] + spine, [socket] + contents;
      assert forall i :: 1 <= i < |spine| ==> spine[i] == was[i - 1];
    }

    /** Takes the first node out of the list. */
    method UnlinkHead()
      requires Valid() && spine != []
      modifies this
      ensures Valid()
      ensures spine == Without(old(spine), 0) && contents == Without(old(contents), 0)
      ensures size == old(size) - 1
    {
      head := head.next;
      size := size - 1;
      assert forall i :: 0 <= i < |spine| - 1 ==> Without(spine, 0)[i] == spine[i + 1];
      spine, contents := Without(spine, 0), Without(contents, 0);
    }

    /** Takes `walker`, the node after `previous`, out of the list. */
    method Unlink(previous: Node, walker: Node, ghost k: nat)
      requires Valid() && k + 1 < |spine| && previous == spine[k] && walker == spine[k + 1]
      modifies this, previous`next
      ensures Valid()
      ensures spine == Without(old(spine), k + 1) && contents == Without(old(contents), k + 1)
      ensures size == old(size) - 1
    {
      NodesDiffer();
      previous.next := walker.next;
      size := size - 1;
      NoRepeatsWithout(spine, k + 1);
      assert forall i :: 0 <= i < |spine| && i != k ==> spine[i] != previous;
      spine, contents := Without(spine, k + 1), Without(contents, k + 1);
    }

    /** Removes the first node with this socket and says whether there was one. */
    method FreeNode(socket: Socket) returns (removed: bool)
      requires Valid()
      modifies this, spine`next
      ensures Valid()
      ensures removed <==> socket in old(contents)
      ensures contents == RemoveFirst(old(contents), socket)
      ensures removed ==> spine == Without(old(spine), IndexOf(old(contents), socket))
      ensures !removed ==> spine == old(spine)
      ensures forall n :: n in spine ==> n in old(spine)
      ensures size == old(size) - if removed then 1 else 0
    {
      if head == null {
        return false;
      }
      if head.socket == socket {
        FirstAt(contents, socket, 0);
        UnlinkHead();
        return true;
      }
      var previous := head;
      var walker := previous.next;
      ghost var k := 0;
      while walker != null
        invariant k < |spine| && previous == spine[k] && walker == At(spine, k + 1)
        invariant forall j :: 0 <= j <= k ==> contents[j] != socket
        decreases |spine| - k
      {
        if walker.socket == socket {
          break;
        }
        previous := walker;
        walker := walker.next;
        k := k + 1;
      }
      if walker == null {
        assert forall j :: 0 <= j < |contents| ==> contents[j] != socket;
        return false;
      }
      FirstAt(contents, socket, k + 1);
      Unlink(previous, walker, k);
      return true;
    }
  }
}
