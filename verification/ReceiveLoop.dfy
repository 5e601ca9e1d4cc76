/** One pass of the receive loop over the connections: received commands are executed, and disconnected
    connections are deleted under the walker. */
module ReceiveLoop {
  import opened Sequences
  import opened SocketList
  import opened Topics
  import M = MessageQueue
  import opened CommandExecution
  import opened Batch
  import opened Subscriptions
  import opened Inputs
  import opened Folds

  /** The current connection is the first occurrence of its pointer among those left. */
  lemma DropsFirst<T>(visited: seq<T>, x: T, rest: seq<T>, gone: set<T>)
    requires x !in visited && x in gone
    ensures Survivors(visited + [x], gone) == Survivors(visited, gone)
    ensures
      var s, p := Survivors(visited, gone) + [x] + rest, |Survivors(visited, gone)|;
      IndexOf(s, x) == p && RemoveFirst(s, x) == Survivors(visited + [x], gone) + rest
  {
    SurvivorsSubset(visited, gone);
    SurvivorsSnoc(visited, x, gone);
    DropAt(Survivors(visited, gone), x, rest);
  }

  /** The walker after `visited`: the list holds what is left of those, then the `rest`, and the
      walker is at the first of the rest. */
  ghost predicate Walking(conns: List, nodes: set<Node>, visited: seq<Socket>, rest: seq<Socket>, walker: Node?, gone: set<Socket>)
    reads conns, nodes
  {
    && Good(conns, nodes)
    && conns.contents == Survivors(visited, gone) + rest
    && walker == At(conns.spine, |Survivors(visited, gone)|)
  }

  /** The node under the walker is the next connection to visit, and has not been freed. */
  lemma WalkerAt(conns: List, nodes: set<Node>, visited: seq<Socket>, rest: seq<Socket>, walker: Node?, gone: set<Socket>)
    requires Walking(conns, nodes, visited, rest, walker, gone)
    ensures walker == null <==> rest == []
    ensures walker != null ==> walker in conns.spine && walker.socket == rest[0]
  {
    if walker != null {
      var p := |Survivors(visited, gone)|;
      assert walker == conns.spine[p] && conns.contents[p] == rest[0];
    }
  }

  /** Deletes the current connection; the walk goes on from the node after it. */
  method DropConnection(conns: List, ghost mine: set<Node>, ghost visited: seq<Socket>, socket: Socket, ghost rest: seq<Socket>,
                        ghost next: Node?, ghost gone: set<Socket>)
    requires Good(conns, mine) && socket in gone && socket !in visited
    requires conns.contents == Survivors(visited, gone) + [socket] + rest
    requires next == At(conns.spine, |Survivors(visited, gone)| + 1)
    modifies conns, mine`next
    ensures Walking(conns, mine, visited + [socket], rest, next, gone)
  {
    DropsFirst(visited, socket, rest, gone);
    var removed := conns.FreeNode(socket);
  }

  /** The list of connections has nothing in common with the topics' lists. */
  ghost predicate Apart(conns: List, mine: set<Node>, broker: Broker)
    reads broker
  {
    conns !in broker.lists && mine !! broker.listNodes
  }

  /** Marks the socket closed, moves the walker on, and only then deletes the node under it. */
  method LeaveConnection(conns: List, ghost mine: set<Node>, ghost visited: seq<Socket>, ghost rest: seq<Socket>,
                         walker: Node, ghost gone: set<Socket>)
      returns (next: Node?)
    requires Walking(conns, mine, visited, rest, walker, gone) && rest != [] && walker.socket == rest[0]
    requires rest[0] in gone && rest[0] !in visited
    modifies conns, mine`next, walker.socket`handle
    ensures rest[0].handle == INVALID
    ensures Walking(conns, mine, visited + [rest[0]], rest[1..], next, gone)
  {
    var socket := walker.socket;
    socket.handle := INVALID;
    next := walker.next;
    assert Survivors(visited, gone) + rest == Survivors(visited, gone) + [socket] + rest[1..];
    DropConnection(conns, mine, visited, socket, rest[1..], next, gone);
  }

  /** The disconnect branch of receive_commands: the connection goes, and then its pointer goes from the
      topics' lists. */
  method Disconnect(conns: List, ghost mine: set<Node>, broker: Broker,
                    ghost visited: seq<Socket>, ghost rest: seq<Socket>, walker: Node, ghost gone: set<Socket>)
      returns (next: Node?)
    requires Walking(conns, mine, visited, rest, walker, gone) && rest != [] && walker.socket == rest[0]
    requires rest[0] in gone && rest[0] !in visited
    requires broker.Valid() && Apart(conns, mine, broker)
    modifies conns, mine`next, broker.lists, broker.listNodes`next, walker.socket`handle
    ensures rest[0].handle == INVALID
    ensures Walking(conns, mine, visited + [rest[0]], rest[1..], next, gone)
    ensures broker.Valid() && broker.Now() == Happen(broker.names, old(broker.Now()), Closed(rest[0]))
  {
    var socket := walker.socket;
    next := LeaveConnection(conns, mine, visited, rest, walker, gone);
    assert broker.Valid() && broker.Now() == old(broker.Now());
    Close(broker, socket);
  }

  /** A connection with commands: they are received into the zeroed buffer and executed. */
  method ReceiveFrom(broker: Broker, buf: array<char>, socket: Socket, commands: Orders)
      returns (responses: seq<Response>)
    requires broker.Valid() && buf[..] == Zeros(buf.Length) && |Wire(commands)| < buf.Length
    modifies buf, broker, broker.queues, broker.queueNodes`next, broker.lists, broker.listNodes`next
    ensures broker.queueNodes >= old(broker.queueNodes) && fresh(broker.queueNodes - old(broker.queueNodes))
    ensures broker.listNodes >= old(broker.listNodes) && fresh(broker.listNodes - old(broker.listNodes))
    ensures broker.Valid() && (broker.Now(), responses) == ExecuteAll(broker.names, old(broker.Now()), commands, socket)
    ensures Ended(responses) <==> Overrun in responses
    ensures Overrun in responses || buf[..] == Zeros(buf.Length)
  {
    var sent := Wire(commands);
    BatchRecovered(commands, buf.Length - |sent|);
    Receive(buf, sent);
    responses := ExecuteBatch(broker, buf, socket, commands);
  }

  /** What the loop has done: `answers` so far, and whether the process has ended. */
  ghost predicate Done(broker: Broker, buf: array<char>, was: State, all: seq<Socket>, k: nat, inputs: map<Socket, Input>,
                       answers: seq<(Socket, Response)>, ended: bool)
    reads broker, broker.queues, broker.queueNodes, broker.lists, broker.listNodes, buf
  {
    && broker.Valid() && Sized(broker.names, was) && k <= |all|
    && Outcome(broker.Now(), answers, ended) == Passed(broker.names, was, all, k, inputs)
    && (ended || buf[..] == Zeros(buf.Length))
  }

  /** A connection that is not closed: its commands, if any, are executed. */
  method Listen(broker: Broker, buf: array<char>, ghost was: State, ghost all: seq<Socket>, ghost k: nat,
                inputs: map<Socket, Input>, socket: Socket, answers: seq<(Socket, Response)>)
      returns (more: seq<(Socket, Response)>, ended: bool)
    requires Done(broker, buf, was, all, k, inputs, answers, false)
    requires k < |all| && socket == all[k] && InputOf(inputs, socket) != Closing && Fitting(inputs, buf.Length)
    modifies buf, broker, broker.queues, broker.queueNodes`next, broker.lists, broker.listNodes`next
    ensures broker.queueNodes >= old(broker.queueNodes) && fresh(broker.queueNodes - old(broker.queueNodes))
    ensures broker.listNodes >= old(broker.listNodes) && fresh(broker.listNodes - old(broker.listNodes))
    ensures Done(broker, buf, was, all, k + 1, inputs, more, ended)
  {
    more, ended := answers, false;
    if InputOf(inputs, socket).Commands? {
      var responses := ReceiveFrom(broker, buf, socket, inputs[socket].commands);
      more, ended := answers + Answered(socket, responses), Ended(responses);
    }
  }

  /** The handles after `k` of the connections, given what they were at the start of the pass. */
  ghost predicate Marked(was: map<Socket, int>, all: seq<Socket>, k: nat, gone: set<Socket>)
    reads gone
  {
    k <= |all| && forall s :: s in gone ==> s in was && s.handle == if s in Seen(all, k) then INVALID else was[s]
  }

  /** The first `k` of the connections. */
  ghost function Seen(all: seq<Socket>, k: nat): set<Socket>
    requires k <= |all|
  {
    if k == 0 then {} else Seen(all, k - 1) + {all[k - 1]}
  }

  lemma {:induction false} SeenIs(all: seq<Socket>, k: nat)
    requires k <= |all|
    ensures forall s :: s in Seen(all, k) <==> s in all[..k]
  {
    if k > 0 {
      SeenIs(all, k - 1);
      assert all[..k] == all[..k - 1] + [all[k - 1]];
    }
  }

  lemma MarkedNext(handles: map<Socket, int>, all: seq<Socket>, k: nat, gone: set<Socket>)
    requires Marked(handles, all, k, gone) && k < |all| && all[k] !in gone
    ensures Marked(handles, all, k + 1, gone)
  {
  }

  /** The first `k` of the connections without those in `gone`. */
  ghost function Staying<T>(all: seq<T>, k: nat, gone: set<T>): seq<T>
    requires k <= |all|
  {
    if k == 0 then [] else Staying(all, k - 1, gone) + if all[k - 1] in gone then [] else [all[k - 1]]
  }

  lemma {:induction false} StayingIs<T>(all: seq<T>, k: nat, gone: set<T>)
    requires k <= |all|
    ensures Staying(all, k, gone) == Survivors(all[..k], gone)
  {
    if k > 0 {
      StayingIs(all, k - 1, gone);
      assert all[..k] == all[..k - 1] + [all[k - 1]];
      SurvivorsSnoc(all[..k - 1], all[k - 1], gone);
    }
  }

  /** The walker is at connection `k` of `all`. */
  ghost predicate WalkingAt(conns: List, mine: set<Node>, all: seq<Socket>, k: nat, walker: Node?, gone: set<Socket>)
    reads conns, mine
  {
    && k <= |all| && Good(conns, mine)
    && conns.contents == Staying(all, k, gone) + all[k..]
    && walker == At(conns.spine, |Staying(all, k, gone)|)
  }

  lemma WalkingIs(conns: List, mine: set<Node>, all: seq<Socket>, k: nat, walker: Node?, gone: set<Socket>)
    requires k <= |all|
    ensures WalkingAt(conns, mine, all, k, walker, gone) <==> Walking(conns, mine, all[..k], all[k..], walker, gone)
  {
    StayingIs(all, k, gone);
  }

  lemma NextOf<T>(all: seq<T>, k: nat)
    requires k < |all| && NoRepeats(all)
    ensures all[k..] != [] && all[k..][0] == all[k] && all[k] !in all[..k]
    ensures all[..k] + [all[k]] == all[..k + 1] && all[k..][1..] == all[k + 1..]
  {
  }

  /** Executing commands does not touch the connections. */
  method Stay(conns: List, ghost mine: set<Node>, broker: Broker, buf: array<char>, ghost was: State, ghost handles: map<Socket, int>,
              ghost all: seq<Socket>, ghost k: nat, walker: Node, inputs: map<Socket, Input>, ghost gone: set<Socket>,
              answers: seq<(Socket, Response)>)
      returns (more: seq<(Socket, Response)>, ended: bool)
    requires WalkingAt(conns, mine, all, k, walker, gone) && Apart(conns, mine, broker) && Marked(handles, all, k, gone)
    requires Done(broker, buf, was, all, k, inputs, answers, false) && InputOf(inputs, walker.socket) != Closing
    requires k < |all| && walker.socket == all[k] && Fitting(inputs, buf.Length)
    modifies buf, broker, broker.queues, broker.queueNodes`next, broker.lists, broker.listNodes`next
    ensures broker.queueNodes >= old(broker.queueNodes) && fresh(broker.queueNodes - old(broker.queueNodes))
    ensures broker.listNodes >= old(broker.listNodes) && fresh(broker.listNodes - old(broker.listNodes))
    ensures WalkingAt(conns, mine, all, k, walker, gone) && Apart(conns, mine, broker) && Marked(handles, all, k, gone)
    ensures Done(broker, buf, was, all, k + 1, inputs, more, ended)
  {
    more, ended := Listen(broker, buf, was, all, k, inputs, walker.socket, answers);
  }

  /** A closed connection. */
  method Part(conns: List, ghost mine: set<Node>, broker: Broker, buf: array<char>, ghost was: State, ghost handles: map<Socket, int>,
              ghost all: seq<Socket>, ghost k: nat, walker: Node, inputs: map<Socket, Input>, ghost gone: set<Socket>,
              answers: seq<(Socket, Response)>)
      returns (next: Node?)
    requires WalkingAt(conns, mine, all, k, walker, gone) && Apart(conns, mine, broker) && Marked(handles, all, k, gone)
    requires Done(broker, buf, was, all, k, inputs, answers, false) && InputOf(inputs, walker.socket) == Closing
    requires k < |all| && walker.socket == all[k] && all[k] in gone && NoRepeats(all)
    modifies conns, mine`next, walker.socket`handle, broker.lists, broker.listNodes`next
    ensures WalkingAt(conns, mine, all, k + 1, next, gone) && Apart(conns, mine, broker) && Marked(handles, all, k + 1, gone)
    ensures Done(broker, buf, was, all, k + 1, inputs, answers, false)
  {
    NextOf(all, k);
    WalkingIs(conns, mine, all, k, walker, gone);
    next := Disconnect(conns, mine, broker, all[..k], all[k..], walker, gone);
    WalkingIs(conns, mine, all, k + 1, next, gone);
  }

  /** The state of the pass after `k` of the connections `all` have been visited. */
  ghost predicate Midway(conns: List, mine: set<Node>, broker: Broker, buf: array<char>, was: State, all: seq<Socket>,
                         k: nat, walker: Node?, inputs: map<Socket, Input>, gone: set<Socket>,
                         answers: seq<(Socket, Response)>, ended: bool)
    reads conns, mine, broker, broker.queues, broker.queueNodes, broker.lists, broker.listNodes, buf
  {
    && WalkingAt(conns, mine, all, k, walker, gone) && Apart(conns, mine, broker)
    && Done(broker, buf, was, all, k, inputs, answers, ended)
  }

  /** The walker goes past a connection that stays. */
  lemma StayWalks(conns: List, mine: set<Node>, all: seq<Socket>, k: nat, walker: Node, gone: set<Socket>)
    requires WalkingAt(conns, mine, all, k, walker, gone) && NoRepeats(all) && k < |all| && all[k] !in gone
    ensures WalkingAt(conns, mine, all, k + 1, walker.next, gone)
  {
    var a := Staying(all, k, gone);
    assert a + all[k..] == a + [all[k]] + all[k + 1..];
    assert walker == conns.spine[|a|];
  }

  /** One turn of the loop. */
  method Turn(conns: List, ghost mine: set<Node>, broker: Broker, buf: array<char>, ghost was: State, ghost handles: map<Socket, int>,
              ghost all: seq<Socket>, ghost k: nat, walker: Node, inputs: map<Socket, Input>,
              ghost gone: set<Socket>, answers: seq<(Socket, Response)>)
      returns (next: Node?, more: seq<(Socket, Response)>, ended: bool)
    requires Midway(conns, mine, broker, buf, was, all, k, walker, inputs, gone, answers, false)
    requires Marked(handles, all, k, gone) && NoRepeats(all) && gone == Gone(inputs) && Fitting(inputs, buf.Length)
    requires k < |all| && walker.socket == all[k] && Fitting(inputs, buf.Length)
    modifies conns, mine`next, gone`handle
    modifies buf, broker, broker.queues, broker.queueNodes`next, broker.lists, broker.listNodes`next
    ensures broker.queueNodes >= old(broker.queueNodes) && fresh(broker.queueNodes - old(broker.queueNodes))
    ensures broker.listNodes >= old(broker.listNodes) && fresh(broker.listNodes - old(broker.listNodes))
    ensures Midway(conns, mine, broker, buf, was, all, k + 1, next, inputs, gone, more, ended)
    ensures Marked(handles, all, k + 1, gone)
  {
    if InputOf(inputs, walker.socket) == Closing {
      more, ended := answers, false;
      next := Part(conns, mine, broker, buf, was, handles, all, k, walker, inputs, gone, answers);
    } else {
      more, ended := Stay(conns, mine, broker, buf, was, handles, all, k, walker, inputs, gone, answers);
      StayWalks(conns, mine, all, k, walker, gone);
      MarkedNext(handles, all, k, gone);
      next := walker.next;
    }
  }

  /** All nodes allocated for the queues and the lists. */
  ghost predicate Allocated(broker: Broker, qs: set<M.Node>, ls: set<Node>)
    reads broker
  {
    broker.queueNodes == qs && broker.listNodes == ls
  }

  ghost predicate AtTurn(conns: List, mine: set<Node>, broker: Broker, buf: array<char>, was: State, handles: map<Socket, int>,
                         all: seq<Socket>, k: nat, walker: Node?, inputs: map<Socket, Input>, gone: set<Socket>,
                         answers: seq<(Socket, Response)>, ended: bool, qs: set<M.Node>, ls: set<Node>)
    reads conns, mine, broker, broker.queues, broker.queueNodes, broker.lists, broker.listNodes, buf, gone
  {
    && Midway(conns, mine, broker, buf, was, all, k, walker, inputs, gone, answers, ended)
    && Marked(handles, all, k, gone) && Allocated(broker, qs, ls)
  }

  /** One turn from the walker. */
  method Advance(conns: List, ghost mine: set<Node>, broker: Broker, buf: array<char>, ghost was: State,
                 ghost handles: map<Socket, int>, ghost all: seq<Socket>, ghost k: nat, walker: Node,
                 inputs: map<Socket, Input>, ghost gone: set<Socket>, answers: seq<(Socket, Response)>,
                 ghost qs: set<M.Node>, ghost ls: set<Node>)
      returns (next: Node?, more: seq<(Socket, Response)>, ended: bool, ghost qs': set<M.Node>, ghost ls': set<Node>)
    requires AtTurn(conns, mine, broker, buf, was, handles, all, k, walker, inputs, gone, answers, false, qs, ls)
    requires NoRepeats(all) && gone == Gone(inputs) && Fitting(inputs, buf.Length)
    modifies conns, mine`next, gone`handle, buf, broker, broker.queues, qs`next, broker.lists, ls`next
    ensures qs <= qs' && fresh(qs' - qs) && ls <= ls' && fresh(ls' - ls) && k < |all|
    ensures AtTurn(conns, mine, broker, buf, was, handles, all, k + 1, next, inputs, gone, more, ended, qs', ls')
  {
    WalkingIs(conns, mine, all, k, walker, gone);
    WalkerAt(conns, mine, all[..k], all[k..], walker, gone);
    next, more, ended := Turn(conns, mine, broker, buf, was, handles, all, k, walker, inputs, gone, answers);
    qs', ls' := broker.queueNodes, broker.listNodes;
  }

  /** The walk is over: at the end of the list or of the process. */
  ghost predicate Over(conns: List, mine: set<Node>, broker: Broker, buf: array<char>, was: State, handles: map<Socket, int>,
                       all: seq<Socket>, k: nat, walker: Node?, inputs: map<Socket, Input>, gone: set<Socket>,
                       answers: seq<(Socket, Response)>, ended: bool)
    reads conns, mine, broker, broker.queues, broker.queueNodes, broker.lists, broker.listNodes, buf, gone
  {
    && (ended || walker == null)
    && Midway(conns, mine, broker, buf, was, all, k, walker, inputs, gone, answers, ended)
    && Marked(handles, all, k, gone)
  }

  /** The walk from connection `k` on, up to the end of the list or of the process: one turn, then the
      rest. */
  method WalkFrom(conns: List, ghost mine: set<Node>, broker: Broker, buf: array<char>, inputs: map<Socket, Input>,
                  ghost gone: set<Socket>, ghost was: State, ghost handles: map<Socket, int>, ghost all: seq<Socket>,
                  ghost k: nat, walker: Node?, before: seq<(Socket, Response)>, over: bool, ghost qs: set<M.Node>, ghost ls: set<Node>)
      returns (answers: seq<(Socket, Response)>, ended: bool, ghost n: nat, ghost end: Node?)
    requires AtTurn(conns, mine, broker, buf, was, handles, all, k, walker, inputs, gone, before, over, qs, ls)
    requires NoRepeats(all) && gone == Gone(inputs) && Fitting(inputs, buf.Length)
    modifies conns, mine`next, gone`handle, buf, broker, broker.queues, qs`next, broker.lists, ls`next
    ensures Over(conns, mine, broker, buf, was, handles, all, n, end, inputs, gone, answers, ended)
    decreases |all| - k
  {
    if walker == null || over {
      return before, over, k, walker;
    }
    ghost var qs', ls';
    var next;
    next, answers, ended, qs', ls' := Advance(conns, mine, broker, buf, was, handles, all, k, walker, inputs, gone, before, qs, ls);
    answers, ended, n, end :=
      WalkFrom(conns, mine, broker, buf, inputs, gone, was, handles, all, k + 1, next, answers, ended, qs', ls');
  }

  /** What the end of the walk means for the connections, and for the events. */
  lemma OverMeans(conns: List, mine: set<Node>, broker: Broker, buf: array<char>, was: State, handles: map<Socket, int>,
                  all: seq<Socket>, k: nat, walker: Node?, inputs: map<Socket, Input>, gone: set<Socket>,
                  answers: seq<(Socket, Response)>, ended: bool)
      returns (n: nat)
    requires Over(conns, mine, broker, buf, was, handles, all, k, walker, inputs, gone, answers, ended)
    ensures k <= |all| && (ended || k == |all|) && conns.contents == Survivors(all[..k], gone) + all[k..]
    ensures forall s :: s in Seen(all, k) <==> s in all[..k]
    ensures Upto(Happening(broker.names), Answering(broker.names), was, EventsOf(all, |all|, inputs), n, broker.Now(), answers)
    ensures Ending(answers, ended) && (ended || n == |EventsOf(all, |all|, inputs)|)
  {
    WalkingIs(conns, mine, all, k, walker, gone);
    WalkerAt(conns, mine, all[..k], all[k..], walker, gone);
    SeenIs(all, k);
    n := PassHappensInAll(broker.names, was, all, k, inputs);
  }

  /** The whole walk, from the head of the list. */
  method WalkAll(conns: List, ghost mine: set<Node>, broker: Broker, buf: array<char>, inputs: map<Socket, Input>,
                 ghost gone: set<Socket>, ghost was: State, ghost handles: map<Socket, int>, ghost all: seq<Socket>)
      returns (answers: seq<(Socket, Response)>, ended: bool, ghost k: nat, ghost end: Node?)
    requires Good(conns, mine) && NoRepeats(all) && gone == Gone(inputs) && all == conns.contents
    requires broker.Valid() && Apart(conns, mine, broker) && was == broker.Now()
    requires buf[..] == Zeros(buf.Length) && Fitting(inputs, buf.Length)
    requires handles == map s | s in gone :: s.handle
    modifies conns, mine`next, gone`handle
    modifies buf, broker, broker.queues, broker.queueNodes`next, broker.lists, broker.listNodes`next
    ensures Over(conns, mine, broker, buf, was, handles, all, k, end, inputs, gone, answers, ended)
  {
    Starts(conns, mine, gone);
    answers, ended, k, end :=
      WalkFrom(conns, mine, broker, buf, inputs, gone, was, handles, all, 0, conns.head, [], false, broker.queueNodes, broker.listNodes);
  }

  /** receive_and_execute_commands: `inputs` is what is found on the connections.  The pass visits each
      connection present at its start once, in order, unless an overrun ends the process: it executes
      the commands of the connection, or deletes the connection under the walker and takes its pointer
      once from each topic.  The connections left keep their order. */
  method ReceivePass(conns: List, ghost mine: set<Node>, broker: Broker, buf: array<char>, inputs: map<Socket, Input>,
                     ghost gone: set<Socket>)
      returns (answers: seq<(Socket, Response)>, ended: bool, ghost k: nat, ghost n: nat)
    requires Good(conns, mine) && NoRepeats(conns.contents) && gone == Gone(inputs)
    requires broker.Valid() && Apart(conns, mine, broker)
    requires buf[..] == Zeros(buf.Length) && Fitting(inputs, buf.Length)
    modifies conns, mine`next, gone`handle
    modifies buf, broker, broker.queues, broker.queueNodes`next, broker.lists, broker.listNodes`next
    ensures k <= |old(conns.contents)| && (ended || k == |old(conns.contents)|)
    ensures
      var all := old(conns.contents);
      && Good(conns, mine) && conns.contents == Survivors(all[..k], gone) + all[k..]
      && Outcome(broker.Now(), answers, ended) == Passed(broker.names, old(broker.Now()), all, k, inputs)
      && forall s :: s in gone ==> s.handle == if s in all[..k] then INVALID else old(s.handle)
    ensures broker.Valid() && (ended || buf[..] == Zeros(buf.Length))
    ensures n <= |EventsOf(old(conns.contents), |old(conns.contents)|, inputs)|
    ensures broker.Now() ==
      Happened(broker.names, old(broker.Now()), EventsOf(old(conns.contents), |old(conns.contents)|, inputs), n)
    ensures answers ==
      AnswersTo(broker.names, old(broker.Now()), EventsOf(old(conns.contents), |old(conns.contents)|, inputs), n)
    ensures forall i :: 0 <= i < |answers| - 1 ==> answers[i].1 != Overrun
    ensures if ended then answers != [] && answers[|answers| - 1].1 == Overrun
            else n == |EventsOf(old(conns.contents), |old(conns.contents)|, inputs)|
                 && (answers != [] ==> answers[|answers| - 1].1 != Overrun)
  {
    ghost var handles, was, all := map s | s in gone :: s.handle, broker.Now(), conns.contents;
    ghost var end;
    answers, ended, k, end := WalkAll(conns, mine, broker, buf, inputs, gone, was, handles, all);
    n := OverMeans(conns, mine, broker, buf, was, handles, all, k, end, inputs, gone, answers, ended);
  }

  lemma Starts(conns: List, mine: set<Node>, gone: set<Socket>)
    requires Good(conns, mine)
    ensures WalkingAt(conns, mine, conns.contents, 0, conns.head, gone)
  {
    var all := conns.contents;
    assert all[0..] == all && [] + all == all;
  }

  const CONNECTION_SOCKET_LIST_MAX_SIZE: int := 99999

  /** accept_connection: `handle` is what `accept` yields, and `nonblocking` whether the socket could be
      made nonblocking.  The pointer is newly allocated, so no connection is in the list twice. */
  method AcceptConnection(conns: List, handle: int, nonblocking: bool)
    requires conns.Valid() && NoRepeats(conns.contents)
    modifies conns
    ensures conns.Valid() && NoRepeats(conns.contents)
    ensures if old(conns.size) <= 99999 && handle != INVALID && nonblocking
            then |conns.contents| > 0 && fresh(conns.contents[0]) && conns.contents[0].handle == handle
                 && conns.contents[1..] == old(conns.contents)
            else conns.contents == old(conns.contents)
  {
    if conns.size > CONNECTION_SOCKET_LIST_MAX_SIZE {
      return;
    }
    ghost var were := conns.contents;
    var socket := new Socket(handle);
    if handle == INVALID {
      return;
    }
    if !nonblocking {
      return;
    }
    assert socket !in were;
    conns.AddToStart(socket);
    assert forall i :: 1 <= i < |conns.contents| ==> conns.contents[i] == were[i - 1];
  }

  /** Commands of one connection leave every other pointer on the lists as often as it was. */
  lemma {:induction false} OthersKeep(names: seq<string>, s: State, commands: seq<string>, socket: Socket, t: nat, p: Socket)
    requires Sized(names, s) && AllWellFormed(commands) && t < |names| && p != socket
    ensures multiset(ExecuteAll(names, s, commands, socket).0.subscribers[t])[p] == multiset(s.subscribers[t])[p]
    decreases |commands|
  {
    if commands != [] {
      var n := |commands| - 1;
      OthersKeep(names, s, commands[..n], socket, t, p);
      HappensToList(names, ExecuteAll(names, s, commands[..n], socket).0, Received(commands[n], socket), t, p);
    }
  }

  lemma VisitCounts(names: seq<string>, o: Outcome, socket: Socket, input: Input, t: nat, p: Socket)
    requires Sized(names, o.state) && t < |names| && !Visited(names, o, socket, input).ended
    requires p == socket ==> !input.Commands?
    ensures !o.ended
    ensures multiset(Visited(names, o, socket, input).state.subscribers[t])[p] ==
      if p == socket && input == Closing && p in o.state.subscribers[t] then multiset(o.state.subscribers[t])[p] - 1
      else multiset(o.state.subscribers[t])[p]
  {
    match input
    case Quiet =>
    case Closing => HappensToList(names, o.state, Closed(socket), t, p);
    case Commands(commands) => OthersKeep(names, o.state, commands, socket, t, p);
  }

  /** Over a whole pass each topic's list loses one occurrence of each disconnected pointer that is in
      it, whatever the other connections do; a pointer whose connection says nothing stays. */
  lemma {:induction false} PassCounts(names: seq<string>, s: State, all: seq<Socket>, k: nat, inputs: map<Socket, Input>,
                                      t: nat, p: Socket)
    requires Sized(names, s) && k <= |all| && NoRepeats(all) && t < |names|
    requires !Passed(names, s, all, k, inputs).ended && !InputOf(inputs, p).Commands?
    ensures multiset(Passed(names, s, all, k, inputs).state.subscribers[t])[p] ==
      if p in all[..k] && InputOf(inputs, p) == Closing && p in s.subscribers[t] then multiset(s.subscribers[t])[p] - 1
      else multiset(s.subscribers[t])[p]
  {
    if k > 0 {
      VisitCounts(names, Passed(names, s, all, k - 1, inputs), all[k - 1], InputOf(inputs, all[k - 1]), t, p);
      PassCounts(names, s, all, k - 1, inputs, t, p);
      assert all[..k] == all[..k - 1] + [all[k - 1]];
    }
  }

  /** A topic's list is rid of a disconnected pointer exactly when it held it at most once: subscribe
      does not look for duplicates, and a disconnect removes one occurrence. */
  lemma RidOfDisconnected(names: seq<string>, s: State, all: seq<Socket>, inputs: map<Socket, Input>, t: nat, p: Socket)
    requires Sized(names, s) && NoRepeats(all) && t < |names| && p in all && InputOf(inputs, p) == Closing
    requires !Passed(names, s, all, |all|, inputs).ended
    ensures p !in Passed(names, s, all, |all|, inputs).state.subscribers[t] <==> multiset(s.subscribers[t])[p] <= 1
  {
    PassCounts(names, s, all, |all|, inputs, t, p);
    assert all[..|all|] == all;
    var after := Passed(names, s, all, |all|, inputs).state.subscribers[t];
    assert p in after <==> multiset(after)[p] > 0;
    assert p in s.subscribers[t] <==> multiset(s.subscribers[t])[p] > 0;
  }
}
