/** What the broker's main thread does with a command. */
module CommandExecution {
  import opened Options
  import opened CStrings
  import opened Sequences
  import opened SocketList
  import opened Topics
  import M = MessageQueue
  import Decimal

  const SUBSCRIBER_LIST_MAX_SIZE: int := 99999

  /** What the commands change: each topic's message queue and list of subscribers, newest first, and
      what has been sent to the stats manager. */
  datatype State = State(queues: seq<seq<string>>, subscribers: seq<seq<Socket>>, notices: seq<string>)

  predicate Sized(names: seq<string>, s: State) {
    |s.queues| == |s.subscribers| == |names|
  }

  /** What a client is sent at once.  `Overrun` means that the number did not fit the six characters
      allocated for it, where `_itoa_s` calls the invalid parameter handler. */
  datatype Response = Silence | Reply(text: string) | Overrun

  /** The index of the first '#' from the topic name on. */
  function SecondHash(command: string, from: nat): (h: nat)
    requires from <= |command| && '#' in command[from..]
    ensures from <= h < |command| && command[h] == '#' && '#' !in command[from..h]
    decreases |command| - from
  {
    if command[from] == '#' then from else
      assert command[from..] == [command[from]] + command[from + 1..];
      var h := SecondHash(command, from + 1);
      assert command[from..h] == [command[from]] + command[from + 1..h];
      h
  }

  /** What the decoders rely on: a publish command has a '#' after its topic name, the others have at
      least a command number and a '#'. */
  predicate WellFormed(command: string) {
    && NUL !in command
    && (command != [] && command[0] == '2' ==> 2 <= |command| && '#' in command[2..])
    && (command != [] && '3' <= command[0] <= '6' ==> 2 <= |command|)
  }

  function TopicOf(command: string): string
    requires WellFormed(command) && command != [] && '2' <= command[0] <= '6'
  {
    if command[0] == '2' then command[2..SecondHash(command, 2)] else command[2..]
  }

  /** What the subscribers will be sent: the message with a '#' in front. */
  function TextOf(command: string): string
    requires WellFormed(command) && command != [] && command[0] == '2'
  {
    "#" + command[SecondHash(command, 2) + 1..]
  }

  /** What the stats manager is sent: the command with the '#' in front of it, without the message. */
  function Notice(command: string): string
    requires WellFormed(command) && command != [] && '2' <= command[0] <= '6'
  {
    "#" + if command[0] == '2' then command[..SecondHash(command, 2)] else command
  }

  function Find(names: seq<string>, name: string): (t: Option<nat>)
    ensures t.Some? <==> name in names
    ensures t.Some? ==> t.value < |names| && names[t.value] == name && name !in names[..t.value]
  {
    if names == [] then None
    else if names[0] == name then Some(0)
    else
      var t := Find(names[1..], name);
      assert names == [names[0]] + names[1..];
      assert t.Some? ==> names[..t.value + 1] == [names[0]] + names[1..][..t.value];
      if t == None then None else Some(t.value + 1)
  }

  /** Whether a command succeeds, which is when the stats manager is notified. */
  ghost predicate Succeeds(names: seq<string>, s: State, command: string, socket: Socket)
    requires Sized(names, s) && WellFormed(command)
  {
    && command != [] && '2' <= command[0] <= '6' && TopicOf(command) in names
    && var t := Find(names, TopicOf(command)).value;
       && (command[0] == '3' ==> |s.subscribers[t]| <= SUBSCRIBER_LIST_MAX_SIZE)
       && (command[0] == '5' ==> NumberReply(|s.subscribers[t]|) != Overrun)
       && (command[0] == '6' ==> socket in s.subscribers[t])
  }

  /** What a command does. */
  ghost function Execute(names: seq<string>, s: State, command: string, socket: Socket): (s': State)
    requires Sized(names, s) && WellFormed(command)
    ensures Sized(names, s')
  {
    if !Succeeds(names, s, command, socket) then s
    else
      var t := Find(names, TopicOf(command)).value;
      s.(notices := s.notices + [Notice(command)],
         queues := if command[0] == '2' then s.queues[t := s.queues[t] + [TextOf(command)]] else s.queues,
         subscribers := if command[0] == '3' then s.subscribers[t := [socket] + s.subscribers[t]]
                        else if command[0] == '6' then s.subscribers[t := RemoveFirst(s.subscribers[t], socket)]
                        else s.subscribers)
  }

  /** What it answers. */
  function Answer(names: seq<string>, s: State, command: string): Response
    requires Sized(names, s) && WellFormed(command)
  {
    if command == [] then Silence
    else if command[0] == '4' then Reply(if TopicOf(command) in names then "1" else "0")
    else if command[0] == '5' then
      if TopicOf(command) in names then NumberReply(|s.subscribers[Find(names, TopicOf(command)).value]|) else Reply("#")
    else Silence
  }

  /** _itoa_s into six characters. */
  function NumberReply(size: nat): Response {
    var digits := Decimal.Numeral(size);
    if |digits| + 1 <= 6 then Reply(digits) else Overrun
  }

  method ExtractForPublish(buf: array<char>, at: nat, ghost command: string)
      returns (topicName: array<char>, message: array<char>)
    requires Holds(buf[..], at, command) && WellFormed(command) && command != [] && command[0] == '2'
    ensures fresh(topicName) && topicName[..] == TopicOf(command) + [NUL]
    ensures fresh(message) && message[..] == TextOf(command) + [NUL]
  {
    var secondHash := FindHash(buf, at, command);
    topicName := CopyTopic(buf, at, secondHash, command);
    message := CopyMessage(buf, at, secondHash, command);
  }

  method CopyTopic(buf: array<char>, at: nat, secondHash: nat, ghost command: string) returns (topicName: array<char>)
    requires Holds(buf[..], at, command) && 2 <= secondHash <= |command|
    ensures fresh(topicName) && topicName[..] == command[2..secondHash] + [NUL]
  {
    var topicSize := secondHash - 2 + 1;
    topicName := new char[topicSize];
    Copy(topicName, 0, buf, at + 2, topicSize - 1);
    topicName[topicSize - 1] := NUL;
    SliceAt(buf[..], at, command, 2, secondHash);
    assert topicName[..] == buf[..][at + 2..at + secondHash] + [NUL];
  }

  method CopyMessage(buf: array<char>, at: nat, secondHash: nat, ghost command: string) returns (message: array<char>)
    requires Holds(buf[..], at, command) && secondHash < |command|
    ensures fresh(message) && message[..] == "#" + command[secondHash + 1..] + [NUL]
  {
    var length := StrLen(buf, at, command);
    var messageSize := length - secondHash;
    message := new char[1 + messageSize];
    message[0] := '#';
    Copy(message, 1, buf, at + secondHash + 1, messageSize);
    SliceAt(buf[..], at, command, secondHash + 1, |command|);
    assert message[..] == ['#'] + buf[..][at + secondHash + 1..at + length] + [NUL];
  }

  /** The scan for the '#' after the topic name. */
  method FindHash(buf: array<char>, at: nat, ghost command: string) returns (secondHash: nat)
    requires Holds(buf[..], at, command) && WellFormed(command) && command != [] && command[0] == '2'
    ensures secondHash == SecondHash(command, 2)
  {
    secondHash := 2;
    CharAt(buf[..], at, command, secondHash);
    while buf[at + secondHash] != '#'
      invariant 2 <= secondHash <= SecondHash(command, 2) && buf[at + secondHash] == command[secondHash]
      decreases SecondHash(command, 2) - secondHash
    {
      secondHash := secondHash + 1;
      CharAt(buf[..], at, command, secondHash);
    }
  }

  method ExtractTopicName(buf: array<char>, at: nat, ghost command: string) returns (topicName: array<char>)
    requires Holds(buf[..], at, command) && WellFormed(command) && command != [] && '3' <= command[0] <= '6'
    ensures fresh(topicName) && topicName[..] == TopicOf(command) + [NUL]
  {
    var length := StrLen(buf, at, command);
    var topicSize := length + 1 - 2;
    topicName := new char[topicSize];
    Copy(topicName, 0, buf, at + 2, topicSize);
    assert topicName[..][..topicSize - 1] == buf[..][at..at + |command|][2..];
  }

  lemma WholeCommand(buf: seq<char>, at: nat, command: string)
    requires Holds(buf, at + 1, command) && buf[at] == '#'
    ensures Holds(buf, at, "#" + command)
    ensures command != [] ==> buf[at + 1] == command[0]
  {
    CharAt(buf, at + 1, command, 0);
    assert forall k :: 0 <= k < |command| ==> command[k] == buf[at + 1..at + 1 + |command|][k];
  }

  lemma NoticeOfPublish(command: string, whole: string, h: nat)
    requires WellFormed(command) && command != [] && command[0] == '2' && whole == "#" + command
    requires h == SecondHash(command, 2) + 1
    ensures whole[0..h] == Notice(command)
  {
  }

  /** The scan for the '#' after the topic name, from the start of the whole command. */
  method FindHashOfWhole(buf: array<char>, at: nat, ghost command: string) returns (secondHash: nat)
    requires Holds(buf[..], at, "#" + command) && WellFormed(command) && command != [] && command[0] == '2'
    ensures secondHash == SecondHash(command, 2) + 1
  {
    ghost var whole := "#" + command;
    secondHash := 3;
    CharAt(buf[..], at, whole, secondHash);
    while buf[at + secondHash] != '#'
      invariant 3 <= secondHash <= SecondHash(command, 2) + 1 && buf[at + secondHash] == whole[secondHash]
      decreases SecondHash(command, 2) + 1 - secondHash
    {
      secondHash := secondHash + 1;
      CharAt(buf[..], at, whole, secondHash);
    }
  }

  /** The command up to its second '#', with a null character. */
  method CutCommand(buf: array<char>, at: nat, ghost command: string) returns (short: array<char>)
    requires Holds(buf[..], at, "#" + command) && WellFormed(command) && command != [] && command[0] == '2'
    ensures fresh(short) && short[..] == Notice(command) + [NUL]
  {
    var secondHash := FindHashOfWhole(buf, at, command);
    short := new char[secondHash + 1];
    Copy(short, 0, buf, at, secondHash + 1);
    short[secondHash] := NUL;
    SliceAt(buf[..], at, "#" + command, 0, secondHash);
    NoticeOfPublish(command, "#" + command, secondHash);
    assert short[..] == buf[..][at..at + secondHash] + [NUL];
  }

  lemma PublishEffect(names: seq<string>, s: State, command: string, socket: Socket, done: bool, mid: State, end: State)
    requires Sized(names, s) && WellFormed(command) && command != [] && command[0] == '2'
    requires done <==> TopicOf(command) in names
    requires mid == if done then var t := Find(names, TopicOf(command)).value;
                      s.(queues := s.queues[t := s.queues[t] + [TextOf(command)]])
                    else s
    requires end == if done then mid.(notices := mid.notices + [Notice(command)]) else mid
    ensures end == Execute(names, s, command, socket)
  {
  }

  lemma SubscribeEffect(names: seq<string>, s: State, command: string, socket: Socket, done: bool, mid: State, end: State)
    requires Sized(names, s) && WellFormed(command) && command != [] && command[0] == '3'
    requires done <==> TopicOf(command) in names
                       && |s.subscribers[Find(names, TopicOf(command)).value]| <= SUBSCRIBER_LIST_MAX_SIZE
    requires mid == if done then var t := Find(names, TopicOf(command)).value;
                      s.(subscribers := s.subscribers[t := [socket] + s.subscribers[t]])
                    else s
    requires end == if done then mid.(notices := mid.notices + [Notice(command)]) else mid
    ensures end == Execute(names, s, command, socket)
  {
  }

  lemma UnsubscribeEffect(names: seq<string>, s: State, command: string, socket: Socket, done: bool, mid: State, end: State)
    requires Sized(names, s) && WellFormed(command) && command != [] && command[0] == '6'
    requires done <==> TopicOf(command) in names && socket in s.subscribers[Find(names, TopicOf(command)).value]
    requires mid == if done then var t := Find(names, TopicOf(command)).value;
                      s.(subscribers := s.subscribers[t := RemoveFirst(s.subscribers[t], socket)])
                    else s
    requires end == if done then mid.(notices := mid.notices + [Notice(command)]) else mid
    ensures end == Execute(names, s, command, socket)
  {
  }

  /** A command of any other kind does nothing and has no answer; only two kinds have one. */
  lemma OtherKinds(names: seq<string>, s: State, command: string, socket: Socket)
    requires Sized(names, s) && WellFormed(command)
    ensures command == [] || !('2' <= command[0] <= '6') ==> Execute(names, s, command, socket) == s
    ensures command == [] || (command[0] != '4' && command[0] != '5') ==> Answer(names, s, command) == Silence
  {
  }

  /** The topics, whose queues and lists of subscribers are on the heap, and the connection to the stats
      manager. */
  class Broker {
    const names: seq<string>
    const queues: seq<M.Queue>
    const lists: seq<List>
    var notices: seq<string>
    ghost var queueNodes: set<M.Node>   // all nodes allocated for the queues
    ghost var listNodes: set<Node>      // all nodes allocated for the lists

    ghost function Now(): State
      reads this, queues, lists
    {
      State(Messages(queues), Contents(lists), notices)
    }

    /** Every queue and list is well formed; in particular each list's cached size is its length. */
    ghost predicate Valid()
      reads this, queues, queueNodes, lists, listNodes
    {
      && |queues| == |lists| == |names| && Distinct(queues) && Distinct(lists)
      && AllGoodQueues(queues, queueNodes) && AllGood(lists, listNodes)
    }

    constructor (names: seq<string>, queues: seq<M.Queue>, lists: seq<List>)
      requires |queues| == |lists| == |names| && Distinct(queues) && Distinct(lists)
      requires forall t :: 0 <= t < |names| ==>
        && queues[t].Valid() && queues[t].contents == [] && queues[t].spine == []
        && lists[t].Valid() && lists[t].contents == [] && lists[t].spine == []
      ensures this.names == names && this.queues == queues && this.lists == lists
      ensures Valid() && notices == [] && queueNodes == {} && listNodes == {}
      ensures forall t :: 0 <= t < |names| ==> Now().queues[t] == [] && Now().subscribers[t] == []
    {
      this.names, this.queues, this.lists := names, queues, lists;
      notices := [];
      queueNodes, listNodes := {}, {};
    }

    /** The index of the topic, or none. */
    method GetTopicByName(topicName: array<char>, ghost topic: string) returns (t: Option<nat>)
      requires topicName[..] == topic + [NUL]
      ensures t == Find(names, topic)
    {
      for i := 0 to |names|
        invariant topic !in names[..i]
      {
        if names[i] == topicName[..topicName.Length - 1] {
          assert names[i] == topic;
          return Some(i);
        }
      }
      return None;
    }

    /** enqueue on the queue of topic `t`. */
    method Enqueue(t: nat, text: string)
      requires Valid() && t < |names|
      modifies this`queueNodes, queues, queueNodes`next
      ensures Valid() && queueNodes >= old(queueNodes) && fresh(queueNodes - old(queueNodes))
      ensures Now() == old(Now()).(queues := old(Now()).queues[t := old(Now()).queues[t] + [text]])
    {
      assert queues[t] in queues && GoodQueue(queues[t], queueNodes);
      queueNodes := EnqueueTo(queues, queueNodes, t, text);
    }

    /** add_to_start on the list of topic `t`. */
    method Join(t: nat, socket: Socket)
      requires Valid() && t < |names|
      modifies this`listNodes, lists
      ensures Valid() && listNodes >= old(listNodes) && fresh(listNodes - old(listNodes))
      ensures Now() == old(Now()).(subscribers := old(Now()).subscribers[t := [socket] + old(Now()).subscribers[t]])
    {
      assert lists[t] in lists && Good(lists[t], listNodes);
      listNodes := JoinTopic(lists, listNodes, t, socket);
    }

    /** free_node on the list of topic `t`. */
    method Leave(t: nat, socket: Socket) returns (removed: bool)
      requires Valid() && t < |names|
      modifies lists, listNodes`next
      ensures Valid()
      ensures removed <==> socket in old(Now()).subscribers[t]
      ensures Now() == old(Now()).(subscribers := old(Now()).subscribers[t := RemoveFirst(old(Now()).subscribers[t], socket)])
    {
      assert lists[t] in lists && Good(lists[t], listNodes);
      removed := LeaveTopic(lists, listNodes, t, socket);
    }

    /** The cached size is the length of the list. */
    lemma SizeIsLength(t: nat)
      requires Valid() && t < |names|
      ensures lists[t].size == |Now().subscribers[t]|
    {
      assert Good(lists[t], listNodes);
    }

    method Publish(topicName: array<char>, message: array<char>, ghost topic: string, ghost text: string) returns (done: bool)
      requires Valid() && topicName[..] == topic + [NUL] && message[..] == text + [NUL]
      modifies this`queueNodes, queues, queueNodes`next
      ensures Valid() && queueNodes >= old(queueNodes) && fresh(queueNodes - old(queueNodes))
      ensures done <==> topic in names
      ensures
        var was := old(Now());
        Now() == if done then var t := Find(names, topic).value; was.(queues := was.queues[t := was.queues[t] + [text]])
                 else was
    {
      var found := GetTopicByName(topicName, topic);
      if found == None {
        return false;
      }
      assert message[..][..message.Length - 1] == text;
      Enqueue(found.value, message[..message.Length - 1]);
      return true;
    }

    method Subscribe(topicName: array<char>, ghost topic: string, socket: Socket) returns (done: bool)
      requires Valid() && topicName[..] == topic + [NUL]
      modifies this`listNodes, lists
      ensures Valid() && listNodes >= old(listNodes) && fresh(listNodes - old(listNodes))
      ensures done <==> topic in names && |old(Now()).subscribers[Find(names, topic).value]| <= SUBSCRIBER_LIST_MAX_SIZE
      ensures
        var was := old(Now());
        Now() == if done then var t := Find(names, topic).value;
                   was.(subscribers := was.subscribers[t := [socket] + was.subscribers[t]])
                 else was
    {
      var found := GetTopicByName(topicName, topic);
      if found == None {
        return false;
      }
      SizeIsLength(found.value);
      if lists[found.value].size <= SUBSCRIBER_LIST_MAX_SIZE {
        Join(found.value, socket);
        return true;
      } else {
        return false;
      }
    }

    method Unsubscribe(topicName: array<char>, ghost topic: string, socket: Socket) returns (done: bool)
      requires Valid() && topicName[..] == topic + [NUL]
      modifies lists, listNodes`next
      ensures Valid()
      ensures done <==> topic in names && socket in old(Now()).subscribers[Find(names, topic).value]
      ensures
        var was := old(Now());
        Now() == if done then var t := Find(names, topic).value;
                   was.(subscribers := was.subscribers[t := RemoveFirst(was.subscribers[t], socket)])
                 else was
    {
      var found := GetTopicByName(topicName, topic);
      if found == None {
        return false;
      }
      done := Leave(found.value, socket);
    }

    method TopicExists(topicName: array<char>, ghost topic: string) returns (response: Response)
      requires topicName[..] == topic + [NUL]
      ensures response == Reply(if topic in names then "1" else "0")
    {
      var found := GetTopicByName(topicName, topic);
      response := Reply(if found.Some? then "1" else "0");
    }

    method SubscriberNumber(topicName: array<char>, ghost topic: string) returns (response: Response)
      requires Valid() && topicName[..] == topic + [NUL]
      ensures response == if topic in names then NumberReply(|Now().subscribers[Find(names, topic).value]|) else Reply("#")
    {
      var found := GetTopicByName(topicName, topic);
      if found == None {
        return Reply("#");
      }
      SizeIsLength(found.value);
      response := NumberReply(lists[found.value].size);
    }

    /** `at` is the index of the '#' in front of the command. */
    method NotifyStatsManager(buf: array<char>, at: nat, ghost command: string)
      requires Valid() && Holds(buf[..], at + 1, command) && buf[at] == '#'
      requires WellFormed(command) && command != [] && '2' <= command[0] <= '6'
      modifies this`notices
      ensures Valid() && Now() == old(Now()).(notices := old(Now()).notices + [Notice(command)])
    {
      WholeCommand(buf[..], at, command);
      ghost var whole := "#" + command;
      if buf[at + 1] == '2' {
        var short := CutCommand(buf, at, command);
        assert short[..][..short.Length - 1] == Notice(command);
        notices := notices + [short[..short.Length - 1]];
      } else {
        var length := StrLen(buf, at, whole);
        assert buf[..][at..at + length] == Notice(command);
        notices := notices + [buf[at..at + length]];
      }
    }

    method NotifyIf(done: bool, buf: array<char>, at: nat, ghost command: string)
      requires Valid() && Holds(buf[..], at + 1, command) && buf[at] == '#'
      requires WellFormed(command) && command != [] && '2' <= command[0] <= '6'
      modifies this`notices
      ensures Valid()
      ensures Now() == if done then old(Now()).(notices := old(Now()).notices + [Notice(command)]) else old(Now())
    {
      if done {
        NotifyStatsManager(buf, at, command);
      }
    }

    /** The branches of execute_command. */
    method ExecutePublish(buf: array<char>, at: nat, ghost command: string, ghost socket: Socket)
      requires Valid() && WellFormed(command) && command != [] && command[0] == '2'
      requires 0 < at && Holds(buf[..], at, command) && buf[at - 1] == '#'
      modifies this`notices, this`queueNodes, queues, queueNodes`next
      ensures queueNodes >= old(queueNodes) && fresh(queueNodes - old(queueNodes))
      ensures Valid() && Now() == Execute(names, old(Now()), command, socket)
    {
      var topicName, message := ExtractForPublish(buf, at, command);
      PublishAndNotify(buf, at, command, socket, topicName, message);
    }

    method PublishAndNotify(buf: array<char>, at: nat, ghost command: string, ghost socket: Socket,
                            topicName: array<char>, message: array<char>)
      requires Valid() && WellFormed(command) && command != [] && command[0] == '2'
      requires 0 < at && Holds(buf[..], at, command) && buf[at - 1] == '#'
      requires topicName[..] == TopicOf(command) + [NUL] && message[..] == TextOf(command) + [NUL]
      modifies this`notices, this`queueNodes, queues, queueNodes`next
      ensures queueNodes >= old(queueNodes) && fresh(queueNodes - old(queueNodes))
      ensures Valid() && Now() == Execute(names, old(Now()), command, socket)
    {
      ghost var was := Now();
      var done := Publish(topicName, message, TopicOf(command), TextOf(command));
      ghost var mid := Now();
      NotifyIf(done, buf, at - 1, command);
      PublishEffect(names, was, command, socket, done, mid, Now());
    }

    method ExecuteSubscribe(buf: array<char>, at: nat, ghost command: string, socket: Socket)
      requires Valid() && WellFormed(command) && command != [] && command[0] == '3'
      requires 0 < at && Holds(buf[..], at, command) && buf[at - 1] == '#'
      modifies this`notices, this`listNodes, lists
      ensures listNodes >= old(listNodes) && fresh(listNodes - old(listNodes))
      ensures Valid() && Now() == Execute(names, old(Now()), command, socket)
    {
      var topicName := ExtractTopicName(buf, at, command);
      SubscribeAndNotify(buf, at, command, socket, topicName);
    }

    method SubscribeAndNotify(buf: array<char>, at: nat, ghost command: string, socket: Socket, topicName: array<char>)
      requires Valid() && WellFormed(command) && command != [] && command[0] == '3'
      requires 0 < at && Holds(buf[..], at, command) && buf[at - 1] == '#'
      requires topicName[..] == TopicOf(command) + [NUL]
      modifies this`notices, this`listNodes, lists
      ensures listNodes >= old(listNodes) && fresh(listNodes - old(listNodes))
      ensures Valid() && Now() == Execute(names, old(Now()), command, socket)
    {
      ghost var was := Now();
      var done := Subscribe(topicName, TopicOf(command), socket);
      ghost var mid := Now();
      NotifyIf(done, buf, at - 1, command);
      SubscribeEffect(names, was, command, socket, done, mid, Now());
    }

    method ExecuteUnsubscribe(buf: array<char>, at: nat, ghost command: string, socket: Socket)
      requires Valid() && WellFormed(command) && command != [] && command[0] == '6'
      requires 0 < at && Holds(buf[..], at, command) && buf[at - 1] == '#'
      modifies this`notices, lists, listNodes`next
      ensures Valid() && Now() == Execute(names, old(Now()), command, socket)
    {
      ghost var was := Now();
      var topicName := ExtractTopicName(buf, at, command);
      var done := Unsubscribe(topicName, TopicOf(command), socket);
      ghost var mid := Now();
      NotifyIf(done, buf, at - 1, command);
      UnsubscribeEffect(names, was, command, socket, done, mid, Now());
    }

    method ExecuteTopicExists(buf: array<char>, at: nat, ghost command: string) returns (response: Response)
      requires Valid() && WellFormed(command) && command != [] && command[0] == '4'
      requires 0 < at && Holds(buf[..], at, command) && buf[at - 1] == '#'
      modifies this`notices
      ensures Valid() && forall socket :: Now() == Execute(names, old(Now()), command, socket)
      ensures response == Answer(names, old(Now()), command)
    {
      var topicName := ExtractTopicName(buf, at, command);
      response := TopicExists(topicName, TopicOf(command));
      if response.text[0] == '1' {
        NotifyStatsManager(buf, at - 1, command);
      }
    }

    method ExecuteSubscriberNumber(buf: array<char>, at: nat, ghost command: string) returns (response: Response)
      requires Valid() && WellFormed(command) && command != [] && command[0] == '5'
      requires 0 < at && Holds(buf[..], at, command) && buf[at - 1] == '#'
      modifies this`notices
      ensures Valid() && forall socket :: Now() == Execute(names, old(Now()), command, socket)
      ensures response == Answer(names, old(Now()), command)
    {
      var topicName := ExtractTopicName(buf, at, command);
      response := SubscriberNumber(topicName, TopicOf(command));
      if response.Reply? && response.text[0] != '#' {
        NotifyStatsManager(buf, at - 1, command);
      }
    }

    /** The commands that have an answer. */
    method ExecuteQuery(buf: array<char>, at: nat, ghost command: string, ghost socket: Socket) returns (response: Response)
      requires Valid() && WellFormed(command) && command != [] && (command[0] == '4' || command[0] == '5')
      requires 0 < at && Holds(buf[..], at, command) && buf[at - 1] == '#'
      modifies this`notices
      ensures Valid() && Now() == Execute(names, old(Now()), command, socket)
      ensures response == Answer(names, old(Now()), command)
    {
      CharAt(buf[..], at, command, 0);
      if buf[at] == '4' {
        response := ExecuteTopicExists(buf, at, command);
      } else {
        response := ExecuteSubscriberNumber(buf, at, command);
      }
    }

    /** The commands that change a queue or a list. */
    method ExecuteChange(buf: array<char>, at: nat, ghost command: string, socket: Socket)
      requires Valid() && WellFormed(command) && command != [] && (command[0] == '2' || command[0] == '3' || command[0] == '6')
      requires 0 < at && Holds(buf[..], at, command) && buf[at - 1] == '#'
      modifies this, queues, queueNodes`next, lists, listNodes`next
      ensures queueNodes >= old(queueNodes) && fresh(queueNodes - old(queueNodes))
      ensures listNodes >= old(listNodes) && fresh(listNodes - old(listNodes))
      ensures Valid() && Now() == Execute(names, old(Now()), command, socket)
    {
      CharAt(buf[..], at, command, 0);
      if buf[at] == '2' {
        ExecutePublish(buf, at, command, socket);
      } else if buf[at] == '3' {
        ExecuteSubscribe(buf, at, command, socket);
      } else {
        ExecuteUnsubscribe(buf, at, command, socket);
      }
    }

    /** execute_command; `at` is the index of the command in the receive buffer. */
    method ExecuteCommand(buf: array<char>, at: nat, ghost command: string, socket: Socket) returns (response: Response)
      requires Valid() && WellFormed(command)
      requires 0 < at && Holds(buf[..], at, command) && buf[at - 1] == '#'
      modifies this, queues, queueNodes`next, lists, listNodes`next
      ensures queueNodes >= old(queueNodes) && fresh(queueNodes - old(queueNodes))
      ensures listNodes >= old(listNodes) && fresh(listNodes - old(listNodes))
      ensures Valid() && Now() == Execute(names, old(Now()), command, socket)
      ensures response == Answer(names, old(Now()), command)
    {
      response := Silence;
      CharAt(buf[..], at, command, 0);
      OtherKinds(names, Now(), command, socket);
      if buf[at] == '2' || buf[at] == '3' || buf[at] == '6' {
        ExecuteChange(buf, at, command, socket);
      } else if buf[at] == '4' || buf[at] == '5' {
        response := ExecuteQuery(buf, at, command, socket);
      }
    }
  }
}
