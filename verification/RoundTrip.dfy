/** The client's encoder against the broker's decoders. */
module RoundTrip {
  import opened CStrings
  import opened Sequences
  import opened SocketList
  import opened Commands
  import opened CommandExecution
  import Decimal

  /** A request whose strings are C strings; with a publish command goes a message. */
  predicate Proper(r: Request) {
    && r.kind != NUL && NUL !in r.topic
    && (r.kind == '2' ==> r.message.Some? && NUL !in r.message.value)
  }

  /** The command as the broker executes it: without the first '#' and the null character. */
  function Command(r: Request): string
    requires Proper(r)
  {
    [r.kind, '#'] + r.topic + if r.kind == '2' then "#" + r.message.value else []
  }

  lemma EncodedIsCommand(r: Request)
    requires Proper(r)
    ensures Encoded(r) == "#" + Command(r) + [NUL] && NUL !in Command(r)
    ensures WellFormed(Command(r))
  {
    var c := Command(r);
    if r.kind == '2' {
      assert c[2..] == r.topic + ("#" + r.message.value);
      assert c[2..][|r.topic|] == '#';
    }
  }

  lemma {:induction false} FirstHash(a: string, b: string, from: nat)
    requires from <= |a| && '#' !in a[from..]
    ensures '#' in (a + "#" + b)[from..] && SecondHash(a + "#" + b, from) == |a|
    decreases |a| - from
  {
    var s := a + "#" + b;
    assert s[from..][|a| - from] == '#';
    if from < |a| {
      assert s[from] == a[from] == a[from..][0];
      assert a[from..] == [a[from]] + a[from + 1..];
      FirstHash(a, b, from + 1);
    }
  }

  /** A published message comes out as it went in, with a '#' in front, and under the topic it was
      published on, exactly when the topic's name has no '#'; the message may have any. */
  lemma PublishRoundTrip(r: Request)
    requires Proper(r) && r.kind == '2'
    ensures WellFormed(Command(r))
    ensures TopicOf(Command(r)) == r.topic && TextOf(Command(r)) == "#" + r.message.value <==> '#' !in r.topic
    ensures '#' !in r.topic ==> Notice(Command(r)) == "#2#" + r.topic
  {
    EncodedIsCommand(r);
    if '#' !in r.topic {
      PublishDecoded(r.topic, r.message.value);
      assert Command(r) == ("2#" + r.topic) + "#" + r.message.value;
    }
  }

  lemma PublishDecoded(topic: string, message: string)
    requires '#' !in topic && NUL !in topic && NUL !in message
    ensures
      var c := ("2#" + topic) + "#" + message;
      WellFormed(c) && TopicOf(c) == topic && TextOf(c) == "#" + message && Notice(c) == "#2#" + topic
  {
    var front := "2#" + topic;
    assert front[2..] == topic;
    FirstHash(front, message, 2);
    var c := front + "#" + message;
    assert c[..|front|] == front && c[|front| + 1..] == message && c[2..|front|] == front[2..];
  }

  /** The other commands carry any topic name through. */
  lemma OtherRoundTrip(r: Request)
    requires Proper(r) && '3' <= r.kind <= '6'
    ensures WellFormed(Command(r))
    ensures TopicOf(Command(r)) == r.topic && Notice(Command(r)) == ['#', r.kind, '#'] + r.topic
  {
    EncodedIsCommand(r);
    assert Command(r)[2..] == r.topic;
  }

  /** What a client asks for, in terms of its request. */
  ghost function Serve(names: seq<string>, s: State, r: Request, socket: Socket): State
    requires Sized(names, s) && Proper(r)
  {
    if r.topic !in names then s
    else
      var t := Find(names, r.topic).value;
      var subs, noted := s.subscribers[t], s.(notices := s.notices + [['#', r.kind, '#'] + r.topic]);
      match r.kind
      case '2' => noted.(queues := s.queues[t := s.queues[t] + ["#" + r.message.value]])
      case '3' => if |subs| <= SUBSCRIBER_LIST_MAX_SIZE then noted.(subscribers := s.subscribers[t := [socket] + subs]) else s
      case '4' => noted
      case '5' => if NumberReply(|subs|) == Overrun then s else noted
      case '6' => if socket in subs then noted.(subscribers := s.subscribers[t := RemoveFirst(subs, socket)]) else s
      case _ => s
  }

  /** What a client is answered. */
  ghost function Asked(names: seq<string>, s: State, r: Request): Response
    requires Sized(names, s) && Proper(r)
  {
    match r.kind
    case '4' => Reply(if r.topic in names then "1" else "0")
    case '5' =>
      if r.topic !in names then Reply("#")
      else
        var size := |s.subscribers[Find(names, r.topic).value]|;
        if size <= SUBSCRIBER_LIST_MAX_SIZE then Reply(Decimal.Numeral(size)) else Overrun
    case _ => Silence
  }

  /** A request as the client menu makes it: it has no other commands, and a publish topic with a '#'
      does not come through. */
  predicate Faithful(r: Request) {
    Proper(r) && (r.kind == '2' ==> '#' !in r.topic)
  }

  /** A size fits its reply exactly when it is at most the maximum. */
  lemma NumberFits(size: nat)
    ensures NumberReply(size) == if size <= SUBSCRIBER_LIST_MAX_SIZE then Reply(Decimal.Numeral(size)) else Overrun
  {
    assert Decimal.Power(5) == 100000;
    Decimal.NumeralFits(size, 5);
  }

  lemma AnswerServes(names: seq<string>, s: State, r: Request)
    requires Sized(names, s) && Faithful(r)
    ensures WellFormed(Command(r)) && Answer(names, s, Command(r)) == Asked(names, s, r)
  {
    EncodedIsCommand(r);
    assert Command(r)[0] == r.kind;
    if '3' <= r.kind <= '6' {
      OtherRoundTrip(r);
      if r.topic in names {
        NumberFits(|s.subscribers[Find(names, r.topic).value]|);
      }
    }
  }

  /** Executing the encoded command does and answers what the request says. */
  lemma ExecuteServes(names: seq<string>, s: State, r: Request, socket: Socket)
    requires Sized(names, s) && Faithful(r)
    ensures WellFormed(Command(r)) && Execute(names, s, Command(r), socket) == Serve(names, s, r, socket)
    ensures Answer(names, s, Command(r)) == Asked(names, s, r)
  {
    AnswerServes(names, s, r);
    EncodedIsCommand(r);
    assert Command(r)[0] == r.kind;
    if r.kind == '2' {
      PublishRoundTrip(r);
    } else if '3' <= r.kind <= '6' {
      OtherRoundTrip(r);
    }
  }
}
