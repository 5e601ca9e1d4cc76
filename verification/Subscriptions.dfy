/** The subscriber lists over whole runs of commands and disconnects. */
module Subscriptions {
  import opened Options
  import opened CStrings
  import opened Sequences
  import opened SocketList
  import opened Topics
  import opened CommandExecution
  import opened Commands
  import opened RoundTrip
  import Decimal

  /** One thing that happens to the main thread: a command from a connection, or the end of one, when
      the first occurrence of its pointer is removed from each topic's list. */
  datatype Event = Received(command: string, socket: Socket) | Closed(socket: Socket)

  ghost predicate Possible(events: seq<Event>) {
    forall k :: 0 <= k < |events| && events[k].Received? ==> WellFormed(events[k].command)
  }

  ghost function Empty(names: seq<string>): (s: State)
    ensures Sized(names, s)
  {
    State(seq(|names|, _ => []), seq(|names|, _ => []), [])
  }

  ghost function Happen(names: seq<string>, s: State, e: Event): (s': State)
    requires Sized(names, s) && (e.Received? ==> WellFormed(e.command))
    ensures Sized(names, s')
  {
    match e
    case Received(command, socket) => Execute(names, s, command, socket)
    case Closed(socket) =>
      s.(subscribers := seq(|names|, t requires 0 <= t < |names| => RemoveFirst(s.subscribers[t], socket)))
  }

  ghost function After(names: seq<string>, events: seq<Event>): (s: State)
    requires Possible(events)
    ensures Sized(names, s)
  {
    if events == [] then Empty(names)
    else Happen(names, After(names, events[..|events| - 1]), events[|events| - 1])
  }

  /** The command is of this kind, names topic `t`, and succeeds. */
  ghost predicate Does(names: seq<string>, s: State, e: Event, kind: char, t: nat, p: Socket)
    requires Sized(names, s) && (e.Received? ==> WellFormed(e.command))
  {
    && e.Received? && e.socket == p && Succeeds(names, s, e.command, p)
    && e.command[0] == kind && Find(names, TopicOf(e.command)) == Some(t)
  }

  /** The successful subscriptions of `p` to topic `t`. */
  ghost function Added(names: seq<string>, events: seq<Event>, t: nat, p: Socket): nat
    requires Possible(events)
  {
    if events == [] then 0
    else
      var n := |events| - 1;
      Added(names, events[..n], t, p) + if Does(names, After(names, events[..n]), events[n], '3', t, p) then 1 else 0
  }

  /** Its successful unsubscriptions, and its disconnects while it was on the list. */
  ghost function Removed(names: seq<string>, events: seq<Event>, t: nat, p: Socket): nat
    requires Possible(events) && t < |names|
  {
    if events == [] then 0
    else
      var n := |events| - 1;
      var before := After(names, events[..n]);
      Removed(names, events[..n], t, p)
      + if Does(names, before, events[n], '6', t, p) || (events[n] == Closed(p) && p in before.subscribers[t]) then 1 else 0
  }

  /** What one event does to one topic's list. */
  lemma HappensToList(names: seq<string>, s: State, e: Event, t: nat, p: Socket)
    requires Sized(names, s) && (e.Received? ==> WellFormed(e.command)) && t < |names|
    ensures
      var list, list' := s.subscribers[t], Happen(names, s, e).subscribers[t];
      && multiset(list')[p] == multiset(list)[p] + (if Does(names, s, e, '3', t, p) then 1 else 0)
           - (if Does(names, s, e, '6', t, p) || (e == Closed(p) && p in list) then 1 else 0)
      && |list'| <= (if |list| <= SUBSCRIBER_LIST_MAX_SIZE then |list| + 1 else |list|)
  {
    var list, list' := s.subscribers[t], Happen(names, s, e).subscribers[t];
    RemoveFirstCounts(list, e.socket);
    assert multiset([e.socket] + list) == multiset{e.socket} + multiset(list);
    assert |RemoveFirst(list, e.socket)| <= |list|;
  }

  /** Over every run a pointer is on a list as often as it was added more often than removed. */
  lemma {:induction false} Multiplicity(names: seq<string>, events: seq<Event>, t: nat, p: Socket)
    requires Possible(events) && t < |names|
    ensures multiset(After(names, events).subscribers[t])[p] == Added(names, events, t, p) - Removed(names, events, t, p)
  {
    if events != [] {
      var n := |events| - 1;
      Multiplicity(names, events[..n], t, p);
      HappensToList(names, After(names, events[..n]), events[n], t, p);
    }
  }

  /** The guard lets a list grow to one more than the maximum, and no further. */
  lemma {:induction false} SizeBounded(names: seq<string>, events: seq<Event>, t: nat)
    requires Possible(events) && t < |names|
    ensures |After(names, events).subscribers[t]| <= SUBSCRIBER_LIST_MAX_SIZE + 1
  {
    if events != [] {
      var n := |events| - 1;
      SizeBounded(names, events[..n], t);
      HappensToList(names, After(names, events[..n]), events[n], t, events[n].socket);
    }
  }

  function Repeated(k: nat, e: Event): (events: seq<Event>)
    ensures |events| == k && forall i :: 0 <= i < k ==> events[i] == e
  {
    seq(k, _ => e)
  }

  /** `k` subscribe commands make a list of `k`, up to that bound: so it is reached. */
  lemma {:induction false} SizeReached(names: seq<string>, topic: string, k: nat, socket: Socket)
    requires topic in names && Proper(Request('3', topic, None))
    ensures
      var e := Received(Command(Request('3', topic, None)), socket);
      && Possible(Repeated(k, e))
      && |After(names, Repeated(k, e)).subscribers[Find(names, topic).value]| ==
         if k <= SUBSCRIBER_LIST_MAX_SIZE + 1 then k else SUBSCRIBER_LIST_MAX_SIZE + 1
  {
    var r := Request('3', topic, None);
    OtherRoundTrip(r);
    if k > 0 {
      var e := Received(Command(r), socket);
      SizeReached(names, topic, k - 1, socket);
      assert Repeated(k, e)[..k - 1] == Repeated(k - 1, e);
    }
  }

  /** After any run, the answer to a subscriber number command fits its buffer and the client reads
      the size of the list in it, exactly when that is at most the maximum; the one larger size that
      the guard allows overruns the buffer. */
  lemma NumberReadsBack(names: seq<string>, events: seq<Event>, command: string)
    requires Possible(events) && WellFormed(command) && command != [] && command[0] == '5' && TopicOf(command) in names
    ensures
      var s := After(names, events);
      var size, answer := |s.subscribers[Find(names, TopicOf(command)).value]|, Answer(names, s, command);
      && (size <= SUBSCRIBER_LIST_MAX_SIZE <==> answer.Reply?)
      && (answer.Reply? ==> |answer.text| + 1 <= 6 && Decimal.Atoi(answer.text) == size)
      && (answer == Overrun <==> size == SUBSCRIBER_LIST_MAX_SIZE + 1)
  {
    var t := Find(names, TopicOf(command)).value;
    var size := |After(names, events).subscribers[t]|;
    SizeBounded(names, events, t);
    assert Decimal.Power(5) == 100000;
    Decimal.NumeralFits(size, 5);
    Decimal.ReadsBack(size, Decimal.INT_MIN, Decimal.INT_MAX);
  }

  /** The successful commands of a run. */
  ghost function Successes(names: seq<string>, events: seq<Event>): nat
    requires Possible(events)
  {
    if events == [] then 0
    else
      var n := |events| - 1;
      var e := events[n];
      Successes(names, events[..n])
      + if e.Received? && Succeeds(names, After(names, events[..n]), e.command, e.socket) then 1 else 0
  }

  /** A notice names the kind of the command and one of the topics. */
  ghost predicate NoticeOk(names: seq<string>, notice: string) {
    3 <= |notice| && notice[0] == '#' && '2' <= notice[1] <= '6' && NUL !in notice && notice[3..] in names
  }

  /** The stats manager is sent one notice for each successful command. */
  lemma {:induction false} OneNoticeEach(names: seq<string>, events: seq<Event>)
    requires Possible(events)
    ensures var notices := After(names, events).notices;
      |notices| == Successes(names, events) && forall k :: 0 <= k < |notices| ==> NoticeOk(names, notices[k])
  {
    if events != [] {
      var n := |events| - 1;
      var e := events[n];
      OneNoticeEach(names, events[..n]);
      if e.Received? && Succeeds(names, After(names, events[..n]), e.command, e.socket) {
        assert Notice(e.command)[3..] == TopicOf(e.command);
      }
    }
  }

  lemma ClosedIs(broker: Broker, was: State, socket: Socket)
    requires broker.Valid() && Sized(broker.names, was)
    requires broker.notices == was.notices && Messages(broker.queues) == was.queues
    requires Contents(broker.lists) ==
      seq(|broker.lists|, t requires 0 <= t < |broker.lists| => RemoveFirst(was.subscribers[t], socket))
    ensures broker.Now() == Happen(broker.names, was, Closed(socket))
  {
    assert Contents(broker.lists) == Happen(broker.names, was, Closed(socket)).subscribers;
  }

  /** The connection is closed: its first occurrence leaves each topic's list. */
  method Close(broker: Broker, socket: Socket)
    requires broker.Valid()
    modifies broker.lists, broker.listNodes`next
    ensures broker.Valid() && broker.Now() == Happen(broker.names, old(broker.Now()), Closed(socket))
  {
    ghost var was := broker.Now();
    LeaveTopics(broker.lists, broker.listNodes, socket);
    ClosedIs(broker, was, socket);
  }

  /** A command arrives in a buffer and is executed. */
  method ReceiveOne(broker: Broker, command: string, socket: Socket)
    requires broker.Valid() && WellFormed(command)
    modifies broker, broker.queues, broker.queueNodes`next, broker.lists, broker.listNodes`next
    ensures broker.queueNodes >= old(broker.queueNodes) && fresh(broker.queueNodes - old(broker.queueNodes))
    ensures broker.listNodes >= old(broker.listNodes) && fresh(broker.listNodes - old(broker.listNodes))
    ensures broker.Valid() && broker.Now() == Execute(broker.names, old(broker.Now()), command, socket)
  {
    var buf := Buffered(command);
    var response := broker.ExecuteCommand(buf, 1, command, socket);
  }

  method Buffered(command: string) returns (buf: array<char>)
    requires NUL !in command
    ensures fresh(buf) && Holds(buf[..], 1, command) && buf[0] == '#'
  {
    buf := new char[|command| + 2];
    Write(buf, 0, "#" + command + [NUL]);
    assert buf[..][1..1 + |command|] == command;
  }

  method HandleEvent(broker: Broker, e: Event)
    requires broker.Valid() && (e.Received? ==> WellFormed(e.command))
    modifies broker, broker.queues, broker.queueNodes`next, broker.lists, broker.listNodes`next
    ensures broker.queueNodes >= old(broker.queueNodes) && fresh(broker.queueNodes - old(broker.queueNodes))
    ensures broker.listNodes >= old(broker.listNodes) && fresh(broker.listNodes - old(broker.listNodes))
    ensures broker.Valid() && broker.Now() == Happen(broker.names, old(broker.Now()), e)
  {
    match e
    case Received(command, socket) => ReceiveOne(broker, command, socket);
    case Closed(socket) => Close(broker, socket);
  }

  lemma AfterSnoc(names: seq<string>, events: seq<Event>, k: nat)
    requires Possible(events) && k < |events|
    ensures After(names, events[..k + 1]) == Happen(names, After(names, events[..k]), events[k])
  {
    assert events[..k + 1][..k] == events[..k];
  }

  /** Over every run on the linked lists of a new broker: each cached size is the length of its list,
      the guard on it bounds the list, and each list holds a pointer as often as it was added more
      often than removed. */
  method RunEvents(broker: Broker, events: seq<Event>)
    requires broker.Valid() && broker.Now() == Empty(broker.names) && Possible(events)
    modifies broker, broker.queues, broker.queueNodes`next, broker.lists, broker.listNodes`next
    ensures broker.Valid() && broker.Now() == After(broker.names, events)
    ensures forall t :: 0 <= t < |broker.names| ==>
      broker.lists[t].size == |broker.lists[t].contents| <= SUBSCRIBER_LIST_MAX_SIZE + 1
    ensures forall t, p :: 0 <= t < |broker.names| ==>
      multiset(broker.lists[t].contents)[p] == Added(broker.names, events, t, p) - Removed(broker.names, events, t, p)
  {
    ghost var queueNodes, listNodes := broker.queueNodes, broker.listNodes;
    for k := 0 to |events|
      invariant broker.Valid() && broker.Now() == After(broker.names, events[..k])
      invariant broker.queueNodes >= queueNodes && fresh(broker.queueNodes - queueNodes)
      invariant broker.listNodes >= listNodes && fresh(broker.listNodes - listNodes)
    {
      AfterSnoc(broker.names, events, k);
      HandleEvent(broker, events[k]);
    }
    assert events[..|events|] == events;
    forall t | 0 <= t < |broker.names|
      ensures broker.lists[t].size == |broker.lists[t].contents| <= SUBSCRIBER_LIST_MAX_SIZE + 1
    {
      broker.SizeIsLength(t);
      SizeBounded(broker.names, events, t);
    }
    forall t, p | 0 <= t < |broker.names|
      ensures multiset(broker.lists[t].contents)[p] == Added(broker.names, events, t, p) - Removed(broker.names, events, t, p)
    {
      Multiplicity(broker.names, events, t, p);
    }
  }

  /** On the heap: `k` subscribe commands to a new broker grow the cached size of the topic's linked list
      to `k`, up to one more than the maximum. */
  method SubscribeTimes(broker: Broker, topic: string, k: nat, socket: Socket)
    requires broker.Valid() && broker.Now() == Empty(broker.names)
    requires topic in broker.names && Proper(Request('3', topic, None))
    modifies broker, broker.queues, broker.queueNodes`next, broker.lists, broker.listNodes`next
    ensures broker.Valid()
    ensures
      var list := broker.lists[Find(broker.names, topic).value];
      list.size == |list.contents| == if k <= SUBSCRIBER_LIST_MAX_SIZE + 1 then k else SUBSCRIBER_LIST_MAX_SIZE + 1
  {
    SizeReached(broker.names, topic, k, socket);
    RunEvents(broker, Repeated(k, Received(Command(Request('3', topic, None)), socket)));
    broker.SizeIsLength(Find(broker.names, topic).value);
  }
}
