/** Sending one message to the subscribers of a topic, over the pointers of the list. */
module Fanout {
  import opened Options
  import opened Sequences
  import opened SocketList
  import opened Walk

  /** The nodes of a list, numbered in order. */
  ghost function Numbered(contents: seq<Socket>): (list: seq<Entry<Socket>>)
    ensures Listed(list, |contents|) && Sockets(list) == contents
  {
    var list := seq(|contents|, k requires 0 <= k < |contents| => Entry(k, contents[k]));
    assert Sockets(list) == contents;
    list
  }

  ghost function Start(contents: seq<Socket>): State<Socket> {
    Begin(Numbered(contents), |contents|)
  }

  /** What the main thread does during the walk's visit number `k`. */
  function Meanwhile(between: seq<seq<Event<Socket>>>, k: nat): seq<Event<Socket>> {
    if k < |between| then between[k] else []
  }

  /** The events of the first `k` visits. */
  ghost function Events(between: seq<seq<Event<Socket>>>, k: nat): seq<Event<Socket>> {
    if k == 0 then [] else Events(between, k - 1) + Meanwhile(between, k - 1) + [Advance]
  }

  /** The walk after `k` visits. */
  ghost function Visited(contents: seq<Socket>, between: seq<seq<Event<Socket>>>, k: nat): State<Socket> {
    After(Start(contents), Events(between, k))
  }

  /** The list with its pointers is the list of the state, and the pointer is the state's walker. */
  ghost predicate Shows(list: List, walker: Node?, s: State<Socket>)
    reads list, list.spine
  {
    && list.Valid() && Sound(s) && Listed(s.list, s.unused)
    && list.contents == Sockets(s.list)
    && (walker == null <==> s.walker == None)
    && (s.walker.Some? ==> walker == list.spine[Reached(s) - 1])
  }

  ghost predicate Among(list: List, nodes: set<Node>)
    reads list
  {
    forall n :: n in list.spine ==> n in nodes
  }

  lemma {:induction false} AfterConcat<T>(s: State<T>, a: seq<Event<T>>, b: seq<Event<T>>)
    ensures After(s, a + b) == After(After(s, a), b)
  {
    if b == [] {
      assert a + b == a;
    } else {
      var n := |b| - 1;
      assert (a + b)[..|a + b| - 1] == a + b[..n];
      AfterConcat(s, a, b[..n]);
    }
  }

  lemma AfterOne<T>(s: State<T>, e: Event<T>)
    ensures After(s, [e]) == Apply(s, e)
  {
    assert After(s, []) == s;
    assert [e][..0] == [];
  }

  /** One call of the main thread. */
  method Change(list: List, e: Event<Socket>, ghost walker: Node?, ghost s: State<Socket>)
    requires Shows(list, walker, s) && !e.Advance? && !Hits(s, e)
    requires s.walker.Some? ==> s.walker.value.id < s.unused
    modifies list, list.spine`next
    ensures Shows(list, walker, Apply(s, e))
    ensures forall n :: n in list.spine ==> n in old(list.spine) || fresh(n)
  {
    if e.Add? {
      list.AddToStart(e.socket);
      AddWalker(s, e.socket);
    } else {
      Withdraw(list, e.socket, walker, s);
    }
  }

  method Withdraw(list: List, p: Socket, ghost walker: Node?, ghost s: State<Socket>)
    requires Shows(list, walker, s) && !Hits(s, Free(p))
    modifies list, list.spine`next
    ensures Shows(list, walker, Apply(s, Free(p)))
    ensures forall n :: n in list.spine ==> n in old(list.spine)
  {
    ghost var was := list.spine;
    var removed := list.FreeNode(p);
    FreePointer(s, p, was, list.spine, walker);
  }

  lemma FreePointer(s: State<Socket>, p: Socket, was: seq<Node>, now: seq<Node>, walker: Node?)
    requires Sound(s) && Listed(s.list, s.unused) && !Hits(s, Free(p)) && |was| == |s.list|
    requires if p in Sockets(s.list) then now == Without(was, IndexOf(Sockets(s.list), p)) else now == was
    requires s.walker.Some? ==> walker == was[Reached(s) - 1]
    ensures
      var s' := Apply(s, Free(p));
      && Sound(s') && Listed(s'.list, s'.unused) && |now| == |s'.list| && s'.walker == s.walker
      && Sockets(s'.list) == RemoveFirst(Sockets(s.list), p)
      && (s.walker.Some? ==> walker == now[Reached(s') - 1])
  {
    FreeShows(s, p);
    if p in Sockets(s.list) && s.walker.Some? {
      MovesTo(was, IndexOf(Sockets(s.list), p), Reached(s) - 1);
    }
  }

  lemma MovesTo<T>(s: seq<T>, k: nat, m: nat)
    requires k < |s| && m < |s| && k != m
    ensures Without(s, k)[if k < m then m - 1 else m] == s[m]
  {
  }

  lemma FreeShows(s: State<Socket>, p: Socket)
    requires Sound(s) && Listed(s.list, s.unused) && !Hits(s, Free(p))
    ensures
      var s' := Apply(s, Free(p));
      && Listed(s'.list, s'.unused) && Sockets(s'.list) == RemoveFirst(Sockets(s.list), p)
      && Sound(s')
      && (if p !in Sockets(s.list) then s' == s
          else
            var k := IndexOf(Sockets(s.list), p);
            && Reached(s') == (if k < Reached(s) then Reached(s) - 1 else Reached(s))
            && (s.walker.Some? ==> k != Reached(s) - 1))
  {
    if p in Sockets(s.list) {
      var k := IndexOf(Sockets(s.list), p);
      FreeWalker(s, p, k);
      FreeLists(s.list, s.unused, k);
      assert Sockets(Apply(s, Free(p)).list) == Without(Sockets(s.list), k);
    }
  }

  /** No call frees the node under the walker, and `Advance` is the walk's own. */
  ghost predicate Undisturbed(contents: seq<Socket>, between: seq<seq<Event<Socket>>>) {
    && (forall k :: 0 <= k < |between| ==> forall i :: 0 <= i < |between[k]| ==> !between[k][i].Advance?)
    && (forall k: nat :: !Hit(Start(contents), Events(between, k)))
  }

  /** The state during visit `k`, after `i` calls of the main thread. */
  ghost function During(contents: seq<Socket>, between: seq<seq<Event<Socket>>>, k: nat, i: nat): State<Socket>
    requires i <= |Meanwhile(between, k)|
  {
    After(Visited(contents, between, k), Meanwhile(between, k)[..i])
  }

  lemma Splice<T>(a: seq<T>, b: seq<T>, c: T, i: nat)
    requires i <= |b|
    ensures (a + b + [c])[..|a| + i] == a + b[..i]
    ensures i < |b| ==> (a + b + [c])[|a| + i] == b[i]
  {
  }

  lemma DuringIsPrefix(contents: seq<Socket>, between: seq<seq<Event<Socket>>>, k: nat, i: nat)
    requires i < |Meanwhile(between, k)|
    ensures
      var events, p := Events(between, k + 1), |Events(between, k)| + i;
      && p < |events| && events[p] == Meanwhile(between, k)[i]
      && During(contents, between, k, i) == After(Start(contents), events[..p])
  {
    AfterConcat(Start(contents), Events(between, k), Meanwhile(between, k)[..i]);
    Splice(Events(between, k), Meanwhile(between, k), Advance, i);
  }

  /** The next call does not hit the walker's node. */
  lemma NextMisses(contents: seq<Socket>, between: seq<seq<Event<Socket>>>, k: nat, i: nat)
    requires Undisturbed(contents, between) && i < |Meanwhile(between, k)|
    ensures
      var s, e := During(contents, between, k, i), Meanwhile(between, k)[i];
      && !e.Advance? && !Hits(s, e) && (s.walker.Some? ==> s.walker.value.id < s.unused)
      && During(contents, between, k, i + 1) == Apply(s, e)
  {
    DuringIsPrefix(contents, between, k, i);
    Missed(contents, Events(between, k + 1), |Events(between, k)| + i);
    Extend(Visited(contents, between, k), Meanwhile(between, k), i);
  }

  lemma Missed(contents: seq<Socket>, events: seq<Event<Socket>>, p: nat)
    requires !Hit(Start(contents), events) && p < |events|
    ensures
      var s := After(Start(contents), events[..p]);
      !Hits(s, events[p]) && (s.walker.Some? ==> s.walker.value.id < s.unused)
  {
    assert !HitsAt(Start(contents), events, p);
    RunOnCourse(Numbered(contents), |contents|, events[..p]);
  }

  lemma Extend(s: State<Socket>, events: seq<Event<Socket>>, i: nat)
    requires i < |events|
    ensures After(s, events[..i + 1]) == Apply(After(s, events[..i]), events[i])
  {
    assert events[..i + 1][..i] == events[..i];
  }

  lemma VisitEnds(contents: seq<Socket>, between: seq<seq<Event<Socket>>>, k: nat)
    ensures During(contents, between, k, 0) == Visited(contents, between, k)
    ensures Visited(contents, between, k + 1) == Apply(During(contents, between, k, |Meanwhile(between, k)|), Advance)
  {
    var gap := Meanwhile(between, k);
    assert gap[..|gap|] == gap;
    AfterConcat(Start(contents), Events(between, k), gap);
    AfterConcat(Start(contents), Events(between, k) + gap, [Advance]);
    AfterOne(After(Start(contents), Events(between, k) + gap), Advance);
  }

  /** The calls of the main thread while the walk is at one node and out of the critical section;
      `nodes` are the nodes allocated for the list. */
  method Gap(list: List, between: seq<seq<Event<Socket>>>, k: nat, ghost contents: seq<Socket>, ghost nodes: set<Node>,
             ghost walker: Node?)
      returns (ghost more: set<Node>)
    requires Undisturbed(contents, between) && Among(list, nodes) && Shows(list, walker, During(contents, between, k, 0))
    modifies list, nodes`next
    ensures Among(list, more) && Shows(list, walker, During(contents, between, k, |Meanwhile(between, k)|))
    ensures nodes <= more && fresh(more - nodes)
  {
    more := nodes;
    var calls := Meanwhile(between, k);
    for i := 0 to |calls|
      invariant Among(list, more) && Shows(list, walker, During(contents, between, k, i))
      invariant nodes <= more && fresh(more - nodes)
    {
      more := Call(list, between, k, i, contents, more, walker);
    }
  }

  method Call(list: List, between: seq<seq<Event<Socket>>>, k: nat, i: nat, ghost contents: seq<Socket>,
              ghost nodes: set<Node>, ghost walker: Node?)
      returns (ghost more: set<Node>)
    requires Undisturbed(contents, between) && i < |Meanwhile(between, k)|
    requires Among(list, nodes) && Shows(list, walker, During(contents, between, k, i))
    modifies list, nodes`next
    ensures Among(list, more) && Shows(list, walker, During(contents, between, k, i + 1))
    ensures nodes <= more && fresh(more - nodes)
  {
    NextMisses(contents, between, k, i);
    Change(list, Meanwhile(between, k)[i], walker, During(contents, between, k, i));
    more := nodes + set n | n in list.spine;
  }

  /** Going to the next node: its pointer is in the node under the walker. */
  lemma NextShows(list: List, walker: Node, s: State<Socket>)
    requires Shows(list, walker, s)
    ensures Shows(list, walker.next, Apply(s, Advance))
    ensures var s' := Apply(s, Advance); s'.list == s.list && Reached(s') <= |s.list|
  {
    var m := Reached(s);
    assert walker == list.spine[m - 1];
    if m < |s.list| {
      IndexOfListed(s.list, s.unused, m);
    }
  }

  lemma StartShows(list: List)
    requires list.Valid()
    ensures Shows(list, list.head, Start(list.contents))
  {
    var numbered := Numbered(list.contents);
    if numbered != [] {
      IndexOfListed(numbered, |numbered|, 0);
    }
  }

  /** How far the walk is from its end. */
  ghost function Left(s: State<Socket>): nat
    requires Sound(s)
  {
    |s.list| - Reached(s) + if s.walker.Some? then 1 else 0
  }

  lemma ChangeKeeps(s: State<Socket>, e: Event<Socket>)
    requires Sound(s) && Listed(s.list, s.unused) && !e.Advance? && !Hits(s, e)
    requires s.walker.Some? ==> s.walker.value.id < s.unused
    ensures
      var s' := Apply(s, e);
      Sound(s') && Listed(s'.list, s'.unused) && s'.walker == s.walker && s'.sent == s.sent && Left(s') <= Left(s)
  {
    if e.Add? {
      AddWalker(s, e.socket);
    } else {
      FreeShows(s, e.socket);
    }
  }

  /** The main thread adds nothing ahead of the walker. */
  lemma {:induction false} DuringKeeps(contents: seq<Socket>, between: seq<seq<Event<Socket>>>, k: nat, i: nat)
    requires Undisturbed(contents, between) && i <= |Meanwhile(between, k)|
    requires var s := Visited(contents, between, k); Sound(s) && Listed(s.list, s.unused)
    ensures
      var s, s' := Visited(contents, between, k), During(contents, between, k, i);
      Sound(s') && Listed(s'.list, s'.unused) && s'.walker == s.walker && s'.sent == s.sent && Left(s') <= Left(s)
  {
    if i == 0 {
      VisitEnds(contents, between, k);
    } else {
      DuringKeeps(contents, between, k, i - 1);
      NextMisses(contents, between, k, i - 1);
      ChangeKeeps(During(contents, between, k, i - 1), Meanwhile(between, k)[i - 1]);
    }
  }

  /** The sockets read, the one under the walker excepted: its message is on the way. */
  ghost predicate SentSoFar(s: State<Socket>, sent: seq<Socket>) {
    if s.walker.Some? then Sockets(s.sent) == sent + [s.walker.value.socket] else Sockets(s.sent) == sent
  }

  lemma AdvanceReads(s: State<Socket>, sent: seq<Socket>)
    requires Sound(s) && Listed(s.list, s.unused) && s.walker.Some? && SentSoFar(s, sent)
    ensures SentSoFar(Apply(s, Advance), sent + [s.walker.value.socket])
    ensures Sound(Apply(s, Advance)) && Left(Apply(s, Advance)) < Left(s)
  {
    var m := Reached(s);
    if m < |s.list| {
      IndexOfListed(s.list, s.unused, m);
      assert Sockets(s.sent + [s.list[m]]) == Sockets(s.sent) + [s.list[m].socket];
    } else {
      assert s.sent + [] == s.sent;
    }
  }

  /** The state of the loop after sending to `sent`. */
  ghost predicate Sending(list: List, nodes: set<Node>, contents: seq<Socket>, between: seq<seq<Event<Socket>>>,
                          sent: seq<Socket>, walker: Node?)
    reads list, nodes
  {
    && Undisturbed(contents, between) && Among(list, nodes)
    && Shows(list, walker, Visited(contents, between, |sent|))
    && SentSoFar(Visited(contents, between, |sent|), sent)
  }

  /** One turn of the loop. */
  method Visit(list: List, between: seq<seq<Event<Socket>>>, ghost contents: seq<Socket>, ghost nodes: set<Node>,
               walker: Node, sent: seq<Socket>)
      returns (next: Node?, more: seq<Socket>, ghost nodes': set<Node>)
    requires Sending(list, nodes, contents, between, sent, walker)
    modifies list, nodes`next
    ensures nodes <= nodes' && fresh(nodes' - nodes)
    ensures Sending(list, nodes', contents, between, more, next)
    ensures Left(Visited(contents, between, |more|)) < Left(Visited(contents, between, |sent|))
  {
    ghost var k := |sent|;
    ghost var s := During(contents, between, k, |Meanwhile(between, k)|);
    var socket := walker.socket;
    VisitEnds(contents, between, k);
    DuringKeeps(contents, between, k, |Meanwhile(between, k)|);
    nodes' := Gap(list, between, |sent|, contents, nodes, walker);
    more := sent + [socket];
    WalkerSocket(list, walker, s);
    AdvanceReads(s, sent);
    NextShows(list, walker, s);
    next := walker.next;
  }

  lemma WalkerSocket(list: List, walker: Node, s: State<Socket>)
    requires Shows(list, walker, s)
    ensures s.walker.Some? && s.walker.value.socket == walker.socket
  {
    assert list.contents[Reached(s) - 1] == s.list[Reached(s) - 1].socket;
  }

  /** send_subscription_message_or_response for a topic: `between[k]` is what the main thread does
      while the k-th socket is being sent to.  Provided no call frees the node under the walker, the
      pointers lead the walk exactly as `Walk` says, so that it sends to what `WalkSendsOnce` says,
      and it leaves a well formed list. */
  method SendToSubscribers(list: List, between: seq<seq<Event<Socket>>>, ghost nodes: set<Node>) returns (sent: seq<Socket>)
    requires Among(list, nodes) && list.Valid() && Undisturbed(list.contents, between)
    modifies list, nodes`next
    ensures list.Valid()
    ensures
      var end := Visited(old(list.contents), between, |sent|);
      && end.walker == None && sent == Sockets(end.sent) && list.contents == Sockets(end.list)
  {
    ghost var contents, nodes' := list.contents, nodes;
    sent := [];
    StartShows(list);
    var walker := list.head;
    while walker != null
      invariant nodes <= nodes' && fresh(nodes' - nodes)
      invariant Sending(list, nodes', contents, between, sent, walker)
      decreases Left(Visited(contents, between, |sent|))
    {
      walker, sent, nodes' := Visit(list, between, contents, nodes', walker, sent);
    }
  }
}
