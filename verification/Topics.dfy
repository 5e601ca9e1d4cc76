/** The lists of subscribers and the message queues of all topics, each changed one at a time. */
module Topics {
  import opened Sequences
  import opened SocketList
  import M = MessageQueue

  ghost predicate Distinct<T>(s: seq<T>) {
    forall i, j :: 0 <= i < j < |s| ==> s[i] != s[j]
  }

  /** A well formed list with its nodes among `nodes`. */
  ghost predicate Good(l: List, nodes: set<Node>)
    reads l, nodes
  {
    (forall n :: n in l.spine ==> n in nodes) && l.Valid()
  }

  ghost predicate AllGood(lists: seq<List>, nodes: set<Node>)
    reads lists, nodes
  {
    forall t :: 0 <= t < |lists| ==> lists[t] in lists && Good(lists[t], nodes)
  }

  ghost function Contents(lists: seq<List>): (cs: seq<seq<Socket>>)
    reads lists
    ensures |cs| == |lists|
  {
    seq(|lists|, t reads lists requires 0 <= t < |lists| => lists[t].contents)
  }

  /** Removes the pointer from one topic's list; no other list changes. */
  method LeaveTopic(lists: seq<List>, ghost nodes: set<Node>, i: nat, socket: Socket) returns (removed: bool)
    requires Distinct(lists) && AllGood(lists, nodes) && i < |lists|
    modifies lists[i], lists[i].spine`next
    ensures AllGood(lists, nodes)
    ensures removed <==> socket in old(Contents(lists))[i]
    ensures Contents(lists) == old(Contents(lists))[i := RemoveFirst(old(lists[i].contents), socket)]
  {
    assert Good(lists[i], nodes);
    removed := lists[i].FreeNode(socket);
    forall t | 0 <= t < |lists| ensures Good(lists[t], nodes) {
      assert lists[t] in lists;
      if t != i {
        assert old(Good(lists[t], nodes));
        assert forall n :: n in lists[t].spine ==> n.owner == lists[t];
      }
    }
  }

  /** Adds the pointer to one topic's list. */
  method JoinTopic(lists: seq<List>, ghost nodes: set<Node>, i: nat, socket: Socket) returns (ghost nodes': set<Node>)
    requires Distinct(lists) && AllGood(lists, nodes) && i < |lists|
    modifies lists[i]
    ensures AllGood(lists, nodes') && nodes <= nodes' && fresh(nodes' - nodes)
    ensures Contents(lists) == old(Contents(lists))[i := [socket] + old(lists[i].contents)]
  {
    assert Good(lists[i], nodes);
    ghost var was := lists[i].spine;
    lists[i].AddToStart(socket);
    assert lists[i].spine == [lists[i].spine[0]] + was;
    nodes' := nodes + {lists[i].spine[0]};
    forall t | 0 <= t < |lists| ensures Good(lists[t], nodes') {
      assert lists[t] in lists;
      if t != i {
        assert old(Good(lists[t], nodes));
      }
    }
  }

  /** The loop of the disconnect branch: removes the pointer once from each topic's list. */
  method LeaveTopics(lists: seq<List>, ghost nodes: set<Node>, socket: Socket)
    requires Distinct(lists) && AllGood(lists, nodes)
    modifies lists, nodes`next
    ensures AllGood(lists, nodes)
    ensures Contents(lists) == seq(|lists|, t requires 0 <= t < |lists| => RemoveFirst(old(Contents(lists))[t], socket))
  {
    ghost var were := Contents(lists);
    for i := 0 to |lists|
      invariant AllGood(lists, nodes)
      invariant forall t :: 0 <= t < |lists| ==>
        Contents(lists)[t] == if t < i then RemoveFirst(were[t], socket) else were[t]
    {
      assert lists[i] in lists && Good(lists[i], nodes);
      var removed := LeaveTopic(lists, nodes, i, socket);
    }
  }

  ghost predicate GoodQueue(q: M.Queue, nodes: set<M.Node>)
    reads q, nodes
  {
    M.Among(q, nodes) && q.Valid()
  }

  ghost predicate AllGoodQueues(queues: seq<M.Queue>, nodes: set<M.Node>)
    reads queues, nodes
  {
    forall t :: 0 <= t < |queues| ==> queues[t] in queues && GoodQueue(queues[t], nodes)
  }

  ghost function Messages(queues: seq<M.Queue>): (ms: seq<seq<string>>)
    reads queues
    ensures |ms| == |queues|
  {
    seq(|queues|, t reads queues requires 0 <= t < |queues| => queues[t].contents)
  }

  /** Adds a message to one topic's queue; no other queue changes. */
  method EnqueueTo(queues: seq<M.Queue>, ghost nodes: set<M.Node>, i: nat, message: string) returns (ghost nodes': set<M.Node>)
    requires Distinct(queues) && AllGoodQueues(queues, nodes) && i < |queues|
    modifies queues[i], queues[i].spine`next
    ensures AllGoodQueues(queues, nodes') && nodes <= nodes' && fresh(nodes' - nodes)
    ensures Messages(queues) == old(Messages(queues))[i := old(queues[i].contents) + [message]]
  {
    assert GoodQueue(queues[i], nodes);
    ghost var was := queues[i].spine;
    queues[i].EnqueueUnsafe(message);
    assert queues[i].spine == was + [queues[i].spine[|was|]];
    nodes' := nodes + {queues[i].spine[|was|]};
    forall t | 0 <= t < |queues| ensures GoodQueue(queues[t], nodes') {
      assert queues[t] in queues;
      if t != i {
        assert old(GoodQueue(queues[t], nodes));
        assert forall n :: n in queues[t].spine ==> n.owner == queues[t];
      }
    }
  }
}
