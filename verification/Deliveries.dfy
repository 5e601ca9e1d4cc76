/** A topic's messages, one walk over its subscribers after the other: what one subscriber gets. */
module Deliveries {
  import opened Options
  import opened Sequences
  import opened Walk

  /** A message, and what happens to the list from the start of its walk to the start of the next. */
  datatype Sending<T(==)> = Sending(message: string, events: seq<Event<T>>)

  ghost function End<T>(list: seq<Entry<T>>, unused: nat, send: Sending<T>): State<T> {
    After(Begin(list, unused), send.events)
  }

  /** Each walk ends, and none has its node freed under it. */
  ghost predicate Undisturbed<T>(list: seq<Entry<T>>, unused: nat, sends: seq<Sending<T>>)
    decreases |sends|
  {
    sends == [] ||
      var end := End(list, unused, sends[0]);
      !Hit(Begin(list, unused), sends[0].events) && end.walker == None && Undisturbed(end.list, end.unused, sends[1..])
  }

  /** The list after all walks. */
  ghost function Final<T>(list: seq<Entry<T>>, unused: nat, sends: seq<Sending<T>>): seq<Entry<T>>
    decreases |sends|
  {
    if sends == [] then list
    else
      var end := End(list, unused, sends[0]);
      Final(end.list, end.unused, sends[1..])
  }

  ghost function Copies<T>(sent: seq<Entry<T>>, message: string): (log: seq<(Entry<T>, string)>)
    ensures |log| == |sent| && forall k :: 0 <= k < |sent| ==> log[k] == (sent[k], message)
  {
    seq(|sent|, k requires 0 <= k < |sent| => (sent[k], message))
  }

  /** What was sent to whom, in order. */
  ghost function Log<T>(list: seq<Entry<T>>, unused: nat, sends: seq<Sending<T>>): seq<(Entry<T>, string)>
    decreases |sends|
  {
    if sends == [] then []
    else
      var end := End(list, unused, sends[0]);
      Copies(end.sent, sends[0].message) + Log(end.list, end.unused, sends[1..])
  }

  /** What one node was sent, in order. */
  ghost function For<T>(log: seq<(Entry<T>, string)>, e: Entry<T>): seq<string> {
    if log == [] then [] else (if log[0].0 == e then [log[0].1] else []) + For(log[1..], e)
  }

  ghost function Messages<T>(sends: seq<Sending<T>>): seq<string> {
    if sends == [] then [] else [sends[0].message] + Messages(sends[1..])
  }

  lemma {:induction false} ForConcat<T>(a: seq<(Entry<T>, string)>, b: seq<(Entry<T>, string)>, e: Entry<T>)
    ensures For(a + b, e) == For(a, e) + For(b, e)
  {
    if a == [] {
      assert a + b == b;
    } else {
      assert (a + b)[1..] == a[1..] + b;
      ForConcat(a[1..], b, e);
    }
  }

  lemma {:induction false} ForCopies<T>(sent: seq<Entry<T>>, message: string, e: Entry<T>)
    requires NoRepeats(sent)
    ensures For(Copies(sent, message), e) == if e in sent then [message] else []
  {
    if sent != [] {
      assert Copies(sent, message)[1..] == Copies(sent[1..], message);
      assert sent == [sent[0]] + sent[1..];
      ForCopies(sent[1..], message, e);
    }
  }

  /** A freed node never comes back: what is in the list later was in it, or has a new address. */
  lemma {:induction false} NoReturn<T>(list: seq<Entry<T>>, unused: nat, events: seq<Event<T>>, e: Entry<T>)
    ensures After(Begin(list, unused), events).unused >= unused
    ensures e in After(Begin(list, unused), events).list ==> e in list || e.id >= unused
  {
    if events != [] {
      NoReturn(list, unused, events[..|events| - 1], e);
    }
  }

  lemma {:induction false} StillThere<T>(list: seq<Entry<T>>, unused: nat, sends: seq<Sending<T>>, e: Entry<T>)
    requires e in Final(list, unused, sends) && e.id < unused
    ensures e in list
    decreases |sends|
  {
    if sends != [] {
      var end := End(list, unused, sends[0]);
      NoReturn(list, unused, sends[0].events, e);
      StillThere(end.list, end.unused, sends[1..], e);
    }
  }

  /** A node that is on the list from the start of the first walk to the end of the last is sent every
      message exactly once and in order, whatever else is added and removed. */
  lemma {:induction false} PresentGetsAll<T>(list: seq<Entry<T>>, unused: nat, sends: seq<Sending<T>>, e: Entry<T>)
    requires Listed(list, unused) && Undisturbed(list, unused, sends)
    requires e in list && e in Final(list, unused, sends)
    ensures For(Log(list, unused, sends), e) == Messages(sends)
    decreases |sends|
  {
    if sends != [] {
      var end := End(list, unused, sends[0]);
      WalkSendsOnce(list, unused, sends[0].events);
      RunOnCourse(list, unused, sends[0].events);
      NoReturn(list, unused, sends[0].events, e);
      StillThere(end.list, end.unused, sends[1..], e);
      PresentGetsAll(end.list, end.unused, sends[1..], e);
      ForCopies(end.sent, sends[0].message, e);
      ForConcat(Copies(end.sent, sends[0].message), Log(end.list, end.unused, sends[1..]), e);
    }
  }
}
