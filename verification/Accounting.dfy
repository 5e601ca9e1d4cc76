/** The counts across the broker, the connection, the stats manager's memory and its file. */
module Accounting {
  import opened Options
  import opened Sequences
  import opened Decimal
  import opened CommandExecution
  import opened StatsFile
  import opened Notifications
  import opened StatsUpdate
  import B = Subscriptions

  /** Where the counts are.  `flight` are the notifications sent and not yet received, and `batches`
      those received, in the batches they came in; without their first '#'. */
  datatype System = System(broker: State, flight: seq<string>, rows: seq<Row>, file: string, batches: seq<seq<string>>)

  /** Something happens at the broker; the stats manager receives the next `count` notifications
      together; or it updates the file. */
  datatype Event = Broker(e: B.Event) | Deliver(count: nat) | Update(readable: bool, writable: bool)

  predicate KnownTopics(names: seq<string>) {
    forall t :: 0 <= t < |names| ==> TopicRow(names[t]).Some?
  }

  predicate AllKnown(ns: seq<string>) {
    forall k :: 0 <= k < |ns| ==> Notification(ns[k]) && CellOf(ns[k]).Some?
  }

  predicate AllBatchesKnown(batches: seq<seq<string>>) {
    forall k :: 0 <= k < |batches| ==> AllKnown(batches[k])
  }

  ghost predicate Possible(events: seq<Event>) {
    forall k :: 0 <= k < |events| && events[k].Broker? && events[k].e.Received? ==> WellFormed(events[k].e.command)
  }

  ghost predicate Shaped(names: seq<string>, s: System) {
    Sized(names, s.broker) && |s.rows| == 3 && FileOk(s.file) && AllKnown(s.flight) && AllBatchesKnown(s.batches)
  }

  /** The notifications of an event at the broker, of which there is at most one. */
  ghost function Sent(names: seq<string>, s: State, e: B.Event): (ns: seq<string>)
    requires KnownTopics(names) && Sized(names, s) && (e.Received? ==> WellFormed(e.command))
    ensures AllKnown(ns) && |ns| <= 1
    ensures B.Happen(names, s, e).notices == s.notices + (if ns == [] then [] else ["#" + ns[0]])
  {
    if e.Received? && Succeeds(names, s, e.command, e.socket) then
      var n := Notice(e.command)[1..];
      assert n[2..] == TopicOf(e.command) && Notice(e.command) == "#" + n;
      [n]
    else []
  }

  lemma UpdatedFileOk(file: string, rows: seq<Row>, readable: bool, writable: bool)
    requires FileOk(file) && |rows| == 3
    ensures FileOk(UpdatedFile(file, rows, readable, writable))
  {
    PrintedReadsBack(SumRows(FileRows(file), rows));
  }

  ghost function Step(names: seq<string>, s: System, e: Event): (s': System)
    requires KnownTopics(names) && Shaped(names, s)
    requires e.Broker? && e.e.Received? ==> WellFormed(e.e.command)
    ensures Shaped(names, s')
  {
    match e
    case Broker(b) =>
      s.(broker := B.Happen(names, s.broker, b), flight := s.flight + Sent(names, s.broker, b))
    case Deliver(count) =>
      var n := if count < |s.flight| then count else |s.flight|;
      s.(rows := Handled(s.rows, s.flight[..n]), flight := s.flight[n..], batches := s.batches + [s.flight[..n]])
    case Update(readable, writable) =>
      UpdatedFileOk(s.file, s.rows, readable, writable);
      s.(file := UpdatedFile(s.file, s.rows, readable, writable), rows := if readable then [ZERO, ZERO, ZERO] else s.rows)
  }

  ghost function Start(names: seq<string>, file: string): (s: System)
    requires FileOk(file)
    ensures Shaped(names, s)
  {
    System(B.Empty(names), [], [ZERO, ZERO, ZERO], file, [])
  }

  ghost predicate Next(names: seq<string>, s: System, e: Event, s': System)
    requires KnownTopics(names)
  {
    Shaped(names, s) && (e.Broker? && e.e.Received? ==> WellFormed(e.e.command)) && s' == Step(names, s, e)
  }

  /** A run from a file: any events, in any order. */
  ghost predicate IsRun(names: seq<string>, file: string, events: seq<Event>, run: seq<System>) {
    && KnownTopics(names) && FileOk(file) && Possible(events)
    && |run| == |events| + 1 && run[0] == Start(names, file)
    && forall k :: 0 <= k < |events| ==> Next(names, run[k], events[k], run[k + 1])
  }

  lemma {:induction false} RunShaped(names: seq<string>, file: string, events: seq<Event>, run: seq<System>, k: nat)
    requires IsRun(names, file, events, run) && k < |run|
    ensures Shaped(names, run[k])
    ensures k > 0 ==> Next(names, run[k - 1], events[k - 1], run[k])
  {
    if k > 0 {
      assert Next(names, run[k - 1], events[k - 1], run[k - 1 + 1]);
    }
  }

  /** The events at the broker. */
  ghost function AtBroker(events: seq<Event>): (bs: seq<B.Event>)
    requires Possible(events)
    ensures B.Possible(bs) && |bs| <= |events|
  {
    if events == [] then []
    else
      var n := |events| - 1;
      AtBroker(events[..n]) + if events[n].Broker? then [events[n].e] else []
  }

  lemma BrokerSnoc(names: seq<string>, bs: seq<B.Event>, e: B.Event)
    requires B.Possible(bs) && (e.Received? ==> WellFormed(e.command))
    ensures B.Possible(bs + [e]) && B.After(names, bs + [e]) == B.Happen(names, B.After(names, bs), e)
  {
    assert (bs + [e])[..|bs|] == bs;
  }

  lemma StepBroker(names: seq<string>, s: System, e: Event)
    requires KnownTopics(names) && Shaped(names, s) && (e.Broker? && e.e.Received? ==> WellFormed(e.e.command))
    ensures Step(names, s, e).broker == if e.Broker? then B.Happen(names, s.broker, e.e) else s.broker
  {
  }

  lemma AtBrokerSnoc(events: seq<Event>, k: nat)
    requires Possible(events) && k < |events|
    ensures AtBroker(events[..k + 1]) ==
      if events[k].Broker? then AtBroker(events[..k]) + [events[k].e] else AtBroker(events[..k])
  {
    assert events[..k + 1][..k] == events[..k];
  }

  lemma BrokerNext(names: seq<string>, s: System, bs: seq<B.Event>, e: Event)
    requires KnownTopics(names) && Shaped(names, s) && (e.Broker? && e.e.Received? ==> WellFormed(e.e.command))
    requires B.Possible(bs) && s.broker == B.After(names, bs)
    ensures
      var bs' := if e.Broker? then bs + [e.e] else bs;
      B.Possible(bs') && Step(names, s, e).broker == B.After(names, bs')
  {
    StepBroker(names, s, e);
    if e.Broker? {
      BrokerSnoc(names, bs, e.e);
    }
  }

  /** The broker's part of the run is a run of the broker. */
  lemma {:induction false} BrokerRuns(names: seq<string>, file: string, events: seq<Event>, run: seq<System>, k: nat)
    requires IsRun(names, file, events, run) && k < |run|
    ensures run[k].broker == B.After(names, AtBroker(events[..k]))
  {
    if k > 0 {
      BrokerRuns(names, file, events, run, k - 1);
      BrokerRunsOn(names, file, events, run, k - 1);
    }
  }

  lemma BrokerRunsOn(names: seq<string>, file: string, events: seq<Event>, run: seq<System>, k: nat)
    requires IsRun(names, file, events, run) && k < |events| && run[k].broker == B.After(names, AtBroker(events[..k]))
    ensures run[k + 1].broker == B.After(names, AtBroker(events[..k + 1]))
  {
    RunShaped(names, file, events, run, k + 1);
    AtBrokerSnoc(events, k);
    BrokerNext(names, run[k], AtBroker(events[..k]), events[k]);
  }

  /** The notifications received, in order. */
  ghost function Flat(batches: seq<seq<string>>): (ns: seq<string>)
    requires AllBatchesKnown(batches)
    ensures AllKnown(ns)
  {
    if batches == [] then [] else Flat(batches[..|batches| - 1]) + batches[|batches| - 1]
  }

  lemma FlatSnoc(batches: seq<seq<string>>, b: seq<string>)
    requires AllBatchesKnown(batches) && AllKnown(b)
    ensures AllBatchesKnown(batches + [b]) && Flat(batches + [b]) == Flat(batches) + b
  {
    assert (batches + [b])[..|batches|] == batches;
  }

  /** The notices the broker has sent are those received, then those in flight. */
  ghost predicate InOrder(s: System)
    requires AllBatchesKnown(s.batches)
  {
    var received := Flat(s.batches) + s.flight;
    && |s.broker.notices| == |received|
    && forall k :: 0 <= k < |received| ==> s.broker.notices[k] == "#" + received[k]
  }

  lemma BrokerInOrder(names: seq<string>, s: System, e: B.Event)
    requires KnownTopics(names) && Shaped(names, s) && (e.Received? ==> WellFormed(e.command)) && InOrder(s)
    ensures InOrder(Step(names, s, Broker(e)))
  {
    var sent := Sent(names, s.broker, e);
    assert Flat(s.batches) + (s.flight + sent) == (Flat(s.batches) + s.flight) + sent;
  }

  lemma DeliverInOrder(s: System, n: nat)
    requires AllKnown(s.flight) && AllBatchesKnown(s.batches) && n <= |s.flight|
    ensures
      var ns := s.flight[..n];
      AllBatchesKnown(s.batches + [ns]) && Flat(s.batches + [ns]) + s.flight[n..] == Flat(s.batches) + s.flight
  {
    FlatSnoc(s.batches, s.flight[..n]);
    assert (Flat(s.batches) + s.flight[..n]) + s.flight[n..] == Flat(s.batches) + s.flight;
  }

  lemma StepInOrder(names: seq<string>, s: System, e: Event)
    requires KnownTopics(names) && Shaped(names, s) && (e.Broker? && e.e.Received? ==> WellFormed(e.e.command))
    requires InOrder(s)
    ensures InOrder(Step(names, s, e))
  {
    match e
    case Broker(b) => BrokerInOrder(names, s, b);
    case Deliver(count) => DeliverInOrder(s, if count < |s.flight| then count else |s.flight|);
    case Update(_, _) =>
  }

  /** Notifications move on, and a step adds at most one. */
  lemma StepBounded(names: seq<string>, s: System, e: Event)
    requires KnownTopics(names) && Shaped(names, s) && (e.Broker? && e.e.Received? ==> WellFormed(e.e.command))
    ensures var s' := Step(names, s, e); |Flat(s'.batches)| + |s'.flight| <= |Flat(s.batches)| + |s.flight| + 1
  {
    match e
    case Broker(b) =>
      var sent := Sent(names, s.broker, b);
    case Deliver(count) =>
      var n := if count < |s.flight| then count else |s.flight|;
      FlatSnoc(s.batches, s.flight[..n]);
    case Update(_, _) =>
  }

  lemma {:induction false} RunInOrder(names: seq<string>, file: string, events: seq<Event>, run: seq<System>, k: nat)
    requires IsRun(names, file, events, run) && k < |run|
    ensures Shaped(names, run[k]) && InOrder(run[k])
    ensures |Flat(run[k].batches)| + |run[k].flight| <= k
  {
    if k == 0 {
      RunShaped(names, file, events, run, 0);
    } else {
      RunInOrder(names, file, events, run, k - 1);
      InOrderNext(names, file, events, run, k - 1);
    }
  }

  lemma InOrderNext(names: seq<string>, file: string, events: seq<Event>, run: seq<System>, k: nat)
    requires IsRun(names, file, events, run) && k < |events| && Shaped(names, run[k]) && InOrder(run[k])
    ensures Shaped(names, run[k + 1]) && InOrder(run[k + 1])
    ensures |Flat(run[k + 1].batches)| + |run[k + 1].flight| <= |Flat(run[k].batches)| + |run[k].flight| + 1
  {
    RunShaped(names, file, events, run, k + 1);
    StepInOrder(names, run[k], events[k]);
    StepBounded(names, run[k], events[k]);
  }

  /** What the counting of received batches adds to a cell: the whole of each batch that begins with a
      notification about it. */
  ghost function Attributed(batches: seq<seq<string>>, cell: (nat, char)): nat
    requires AllBatchesKnown(batches)
  {
    if batches == [] then 0
    else
      var last := batches[|batches| - 1];
      Attributed(batches[..|batches| - 1], cell) + if last != [] && CellOf(last[0]) == Some(cell) then |last| else 0
  }

  lemma {:induction false} AttributedBounded(batches: seq<seq<string>>, cell: (nat, char))
    requires AllBatchesKnown(batches)
    ensures Attributed(batches, cell) <= |Flat(batches)|
  {
    if batches != [] {
      AttributedBounded(batches[..|batches| - 1], cell);
    }
  }

  /** What a counter of the file stands at; an empty file counts nothing. */
  ghost function Stored(file: string, t: nat, kind: char): nat
    requires FileOk(file) && t < 3 && Counted(kind)
  {
    if file == "" then 0 else Counter(Parsed(file)[t], kind)
  }

  lemma StoredIs(file: string, t: nat, kind: char)
    requires FileOk(file) && t < 3 && Counted(kind)
    ensures Stored(file, t, kind) == Counter(FileRows(file)[t], kind)
  {
  }

  lemma UpdateStores(file: string, rows: seq<Row>, t: nat, kind: char)
    requires FileOk(file) && |rows| == 3 && t < 3 && Counted(kind)
    ensures
      var file', sum := UpdatedFile(file, rows, true, true), Stored(file, t, kind) + Counter(rows[t], kind);
      && file' != "" && Readable(file')
      && (Counter(Parsed(file')[t], kind) == sum <==> sum <= LLONG_MAX)
  {
    UpdatedRows(file, rows, t);
    if file != "" {
      SumCounts(Parsed(file)[t], rows[t], kind);
    } else {
      SumCounts(ZERO, rows[t], kind);
      NothingIn(kind);
      assert Sum(ZERO, rows[t]) == rows[t];
    }
  }

  /** What a cell counts in the file and in memory. */
  ghost function Cell(s: System, t: nat, kind: char): nat
    requires FileOk(s.file) && |s.rows| == 3 && t < 3 && Counted(kind)
  {
    Stored(s.file, t, kind) + Counter(s.rows[t], kind)
  }

  /** An update that reads and writes the file keeps what a cell counts exactly when that is below
      2^63; the file alone then holds it. */
  lemma UpdateConserves(s: System, t: nat, kind: char)
    requires FileOk(s.file) && |s.rows| == 3 && t < 3 && Counted(kind)
    ensures
      var file := UpdatedFile(s.file, s.rows, true, true);
      && file != "" && Readable(file)
      && (Counter(Parsed(file)[t], kind) == Cell(s, t, kind) <==> Cell(s, t, kind) <= LLONG_MAX)
  {
    UpdateStores(s.file, s.rows, t, kind);
  }

  lemma SumCounts(a: Row, b: Row, kind: char)
    requires Counted(kind)
    ensures
      var sum := Counter(a, kind) + Counter(b, kind);
      Counter(SaturatedRow(Sum(a, b)), kind) == sum <==> sum <= LLONG_MAX
  {
  }

  /** Whenever the file could be read for an update it could be written, too. */
  ghost predicate WritesSucceed(events: seq<Event>) {
    forall k :: 0 <= k < |events| && events[k].Update? && events[k].readable ==> events[k].writable
  }

  lemma DeliverCell(s: System, n: nat, t: nat, kind: char)
    requires |s.rows| == 3 && AllKnown(s.flight) && AllBatchesKnown(s.batches) && n <= |s.flight|
    requires t < 3 && Counted(kind) && Counter(s.rows[t], kind) + |s.flight| <= LLONG_MAX
    ensures
      var ns := s.flight[..n];
      && AllNotifications(ns) && AllBatchesKnown(s.batches + [ns])
      && Counter(Handled(s.rows, ns)[t], kind) - Attributed(s.batches + [ns], (t, kind))
         == Counter(s.rows[t], kind) - Attributed(s.batches, (t, kind))
  {
    var ns := s.flight[..n];
    HandledCounts(s.rows, ns, t, kind);
    assert (s.batches + [ns])[..|s.batches|] == s.batches;
  }

  lemma UpdateCell(s: System, t: nat, kind: char)
    requires FileOk(s.file) && |s.rows| == 3 && t < 3 && Counted(kind) && Cell(s, t, kind) <= LLONG_MAX
    ensures
      var s' := s.(file := UpdatedFile(s.file, s.rows, true, true), rows := [ZERO, ZERO, ZERO]);
      FileOk(s'.file) && Cell(s', t, kind) == Cell(s, t, kind)
  {
    UpdateConserves(s, t, kind);
    CellReset(s.(file := UpdatedFile(s.file, s.rows, true, true)), t, kind);
  }

  lemma CellReset(s: System, t: nat, kind: char)
    requires FileOk(s.file) && t < 3 && Counted(kind)
    ensures Cell(s.(rows := [ZERO, ZERO, ZERO]), t, kind) == Stored(s.file, t, kind)
  {
    NothingIn(kind);
  }

  lemma NothingIn(kind: char)
    requires Counted(kind)
    ensures Counter(ZERO, kind) == 0
  {
  }

  lemma StepCell(names: seq<string>, s: System, e: Event, t: nat, kind: char)
    requires KnownTopics(names) && Shaped(names, s) && (e.Broker? && e.e.Received? ==> WellFormed(e.e.command))
    requires t < 3 && Counted(kind) && Cell(s, t, kind) + |s.flight| <= LLONG_MAX
    requires e.Update? && e.readable ==> e.writable
    ensures
      var s' := Step(names, s, e);
      Cell(s', t, kind) - Attributed(s'.batches, (t, kind)) == Cell(s, t, kind) - Attributed(s.batches, (t, kind))
  {
    match e
    case Broker(_) =>
    case Deliver(count) =>
      DeliverCell(s, if count < |s.flight| then count else |s.flight|, t, kind);
    case Update(readable, writable) =>
      if readable {
        UpdateCell(s, t, kind);
      }
  }

  /** A cell counts `base` and what the received batches added. */
  ghost predicate Accounted(s: System, base: nat, t: nat, kind: char)
    requires FileOk(s.file) && |s.rows| == 3 && AllBatchesKnown(s.batches) && t < 3 && Counted(kind)
  {
    Cell(s, t, kind) == base + Attributed(s.batches, (t, kind))
  }

  lemma StepAccounted(names: seq<string>, s: System, e: Event, base: nat, t: nat, kind: char)
    requires KnownTopics(names) && Shaped(names, s) && (e.Broker? && e.e.Received? ==> WellFormed(e.e.command))
    requires t < 3 && Counted(kind) && base + |Flat(s.batches)| + |s.flight| <= LLONG_MAX
    requires e.Update? && e.readable ==> e.writable
    requires Accounted(s, base, t, kind)
    ensures Accounted(Step(names, s, e), base, t, kind)
  {
    AttributedBounded(s.batches, (t, kind));
    StepCell(names, s, e, t, kind);
  }

  ghost predicate ShapedAndAccounted(names: seq<string>, s: System, base: nat, t: nat, kind: char) {
    t < 3 && Counted(kind) && Shaped(names, s) && Accounted(s, base, t, kind)
  }

  lemma RunAccounted(names: seq<string>, file: string, events: seq<Event>, run: seq<System>, t: nat, kind: char, k: nat)
    requires IsRun(names, file, events, run) && WritesSucceed(events) && k < |run|
    requires t < 3 && Counted(kind) && Stored(file, t, kind) + |events| <= LLONG_MAX
    ensures ShapedAndAccounted(names, run[k], Stored(file, t, kind), t, kind)
  {
    var base := Stored(file, t, kind);
    var holds := (s: System) => ShapedAndAccounted(names, s, base, t, kind);
    StartAccounted(names, file, t, kind);
    forall i | 0 <= i < |run| - 1 && holds(run[i]) ensures holds(run[i + 1]) {
      AccountedOn(names, file, events, run, base, t, kind, i);
    }
    HoldsAlong(run, holds, 0, k);
  }

  lemma AccountedOn(names: seq<string>, file: string, events: seq<Event>, run: seq<System>,
                    base: nat, t: nat, kind: char, k: nat)
    requires IsRun(names, file, events, run) && WritesSucceed(events) && k < |events|
    requires ShapedAndAccounted(names, run[k], base, t, kind) && base + |events| <= LLONG_MAX
    ensures ShapedAndAccounted(names, run[k + 1], base, t, kind)
  {
    RunInOrder(names, file, events, run, k);
    RunShaped(names, file, events, run, k + 1);
    NextAccounted(names, run[k], events[k], run[k + 1], base, t, kind);
  }

  lemma NextAccounted(names: seq<string>, s: System, e: Event, s': System, base: nat, t: nat, kind: char)
    requires KnownTopics(names) && Next(names, s, e, s') && (e.Update? && e.readable ==> e.writable)
    requires t < 3 && Counted(kind) && base + |Flat(s.batches)| + |s.flight| <= LLONG_MAX && Accounted(s, base, t, kind)
    ensures Shaped(names, s') && Accounted(s', base, t, kind)
  {
    StepAccounted(names, s, e, base, t, kind);
  }

  lemma StartAccounted(names: seq<string>, file: string, t: nat, kind: char)
    requires FileOk(file) && t < 3 && Counted(kind)
    ensures ShapedAndAccounted(names, Start(names, file), Stored(file, t, kind), t, kind)
  {
    CellReset(Start(names, file), t, kind);
    assert Attributed([], (t, kind)) == 0;
  }

  /** In every run in which the file can be written whenever it can be read, and that is short enough
      for no counter to pass 2^63: what a cell counts in the file and in memory is what the file
      counted at the start and what received batches added. */
  lemma CellAccounts(names: seq<string>, file: string, events: seq<Event>, run: seq<System>, t: nat, kind: char)
    requires IsRun(names, file, events, run) && WritesSucceed(events)
    requires t < 3 && Counted(kind) && Stored(file, t, kind) + |events| <= LLONG_MAX
    ensures
      var s := run[|events|];
      && Shaped(names, s)
      && Cell(s, t, kind) == Stored(file, t, kind) + Attributed(s.batches, (t, kind))
  {
    RunAccounted(names, file, events, run, t, kind, |events|);
  }

  lemma {:induction false} CountConcat(a: seq<string>, b: seq<string>, cell: (nat, char))
    requires AllNotifications(a) && AllNotifications(b)
    ensures AllNotifications(a + b) && Count(a + b, cell) == Count(a, cell) + Count(b, cell)
  {
    if b == [] {
      assert a + b == a;
    } else {
      assert (a + b)[..|a + b| - 1] == a + b[..|b| - 1];
      CountConcat(a, b[..|b| - 1], cell);
    }
  }

  lemma {:induction false} MentionsConcat(a: seq<string>, b: seq<string>, name: string, kind: char)
    requires AllNotifications(a) && AllNotifications(b)
    ensures AllNotifications(a + b) && Mentions(a + b, name, kind) == Mentions(a, name, kind) + Mentions(b, name, kind)
  {
    if b == [] {
      assert a + b == a;
    } else {
      assert (a + b)[..|a + b| - 1] == a + b[..|b| - 1];
      MentionsConcat(a, b[..|b| - 1], name, kind);
    }
  }

  lemma {:induction false} UniformAttributed(batches: seq<seq<string>>, cell: (nat, char))
    requires AllBatchesKnown(batches) && forall k :: 0 <= k < |batches| ==> Uniform(batches[k])
    ensures Attributed(batches, cell) == Count(Flat(batches), cell)
  {
    if batches != [] {
      var n := |batches| - 1;
      UniformAttributed(batches[..n], cell);
      UniformCounts(batches[n], cell);
      CountConcat(Flat(batches[..n]), batches[n], cell);
    }
  }

  /** The successful commands of a kind on a topic. */
  ghost function Commanded(names: seq<string>, bs: seq<B.Event>, name: string, kind: char): nat
    requires B.Possible(bs)
  {
    if bs == [] then 0
    else
      var n := |bs| - 1;
      var e := bs[n];
      Commanded(names, bs[..n], name, kind)
      + if e.Received? && Succeeds(names, B.After(names, bs[..n]), e.command, e.socket)
           && e.command[0] == kind && TopicOf(e.command) == name then 1 else 0
  }

  /** What the stats manager has been told, in order: what it received, then what is in flight. */
  ghost function Told(s: System): (ns: seq<string>)
    requires AllBatchesKnown(s.batches) && AllKnown(s.flight)
    ensures AllNotifications(ns)
  {
    Flat(s.batches) + s.flight
  }

  lemma StepTold(names: seq<string>, s: System, e: Event)
    requires KnownTopics(names) && Shaped(names, s) && (e.Broker? && e.e.Received? ==> WellFormed(e.e.command))
    ensures Told(Step(names, s, e)) == if e.Broker? then Told(s) + Sent(names, s.broker, e.e) else Told(s)
  {
    match e
    case Broker(b) =>
      var sent := Sent(names, s.broker, b);
      assert Flat(s.batches) + (s.flight + sent) == (Flat(s.batches) + s.flight) + sent;
    case Deliver(count) => DeliverInOrder(s, if count < |s.flight| then count else |s.flight|);
    case Update(_, _) =>
  }

  lemma SentMentions(names: seq<string>, s: State, e: B.Event, name: string, kind: char)
    requires KnownTopics(names) && Sized(names, s) && (e.Received? ==> WellFormed(e.command))
    ensures Mentions(Sent(names, s, e), name, kind) ==
      if e.Received? && Succeeds(names, s, e.command, e.socket)
         && e.command[0] == kind && TopicOf(e.command) == name then 1 else 0
  {
    if e.Received? && Succeeds(names, s, e.command, e.socket) {
      var n := Notice(e.command)[1..];
      assert n[2..] == TopicOf(e.command) && n[0] == e.command[0];
      assert Mentions([n][..0], name, kind) == 0;
    }
  }

  lemma CommandedSnoc(names: seq<string>, bs: seq<B.Event>, e: B.Event, name: string, kind: char)
    requires B.Possible(bs) && (e.Received? ==> WellFormed(e.command))
    ensures B.Possible(bs + [e])
    ensures Commanded(names, bs + [e], name, kind) == Commanded(names, bs, name, kind)
      + if e.Received? && Succeeds(names, B.After(names, bs), e.command, e.socket)
           && e.command[0] == kind && TopicOf(e.command) == name then 1 else 0
  {
    assert (bs + [e])[..|bs|] == bs;
  }

  /** What the stats manager has been told counts the successful commands of the broker's events. */
  ghost predicate ToldAt(names: seq<string>, s: System, bs: seq<B.Event>, name: string, kind: char) {
    && Shaped(names, s) && B.Possible(bs) && s.broker == B.After(names, bs)
    && Mentions(Told(s), name, kind) == Commanded(names, bs, name, kind)
  }

  /** It does so throughout, for each kind on each topic. */
  lemma {:induction false} ToldCounts(names: seq<string>, file: string, events: seq<Event>, run: seq<System>, k: nat,
                                      name: string, kind: char)
    requires IsRun(names, file, events, run) && k < |run|
    ensures ToldAt(names, run[k], AtBroker(events[..k]), name, kind)
  {
    if k == 0 {
      ToldStarts(names, file, name, kind);
    } else {
      ToldCounts(names, file, events, run, k - 1, name, kind);
      ToldNext(names, file, events, run, k - 1, name, kind);
    }
  }

  lemma ToldStarts(names: seq<string>, file: string, name: string, kind: char)
    requires FileOk(file)
    ensures ToldAt(names, Start(names, file), [], name, kind)
  {
  }

  lemma ToldNext(names: seq<string>, file: string, events: seq<Event>, run: seq<System>, k: nat, name: string, kind: char)
    requires IsRun(names, file, events, run) && k < |events| && ToldAt(names, run[k], AtBroker(events[..k]), name, kind)
    ensures ToldAt(names, run[k + 1], AtBroker(events[..k + 1]), name, kind)
  {
    AtBrokerSnoc(events, k);
    assert Next(names, run[k], events[k], run[k + 1]);
    TellNext(names, run[k], events[k], run[k + 1], AtBroker(events[..k]), name, kind);
  }

  lemma TellNext(names: seq<string>, s: System, e: Event, s': System, bs: seq<B.Event>, name: string, kind: char)
    requires KnownTopics(names) && Next(names, s, e, s') && ToldAt(names, s, bs, name, kind)
    ensures ToldAt(names, s', if e.Broker? then bs + [e.e] else bs, name, kind)
  {
    StepTold(names, s, e);
    BrokerNext(names, s, bs, e);
    if e.Broker? {
      TellCounts(names, s, bs, e.e, name, kind);
    }
  }

  lemma TellCounts(names: seq<string>, s: System, bs: seq<B.Event>, e: B.Event, name: string, kind: char)
    requires KnownTopics(names) && Shaped(names, s) && (e.Received? ==> WellFormed(e.command))
    requires B.Possible(bs) && s.broker == B.After(names, bs)
    requires Mentions(Told(s), name, kind) == Commanded(names, bs, name, kind)
    ensures B.Possible(bs + [e])
    ensures Mentions(Told(s) + Sent(names, s.broker, e), name, kind) == Commanded(names, bs + [e], name, kind)
  {
    MentionsConcat(Told(s), Sent(names, s.broker, e), name, kind);
    SentMentions(names, s.broker, e, name, kind);
    CommandedSnoc(names, bs, e, name, kind);
  }

  lemma AttributedMentions(s: System, name: string, t: nat, kind: char)
    requires AllBatchesKnown(s.batches) && AllKnown(s.flight) && forall k :: 0 <= k < |s.batches| ==> Uniform(s.batches[k])
    requires t < 3 && name == ["news", "updates", "warnings"][t] && Counted(kind)
    ensures Attributed(s.batches, (t, kind)) + Mentions(s.flight, name, kind) == Mentions(Told(s), name, kind)
  {
    UniformAttributed(s.batches, (t, kind));
    RowsOfTopics(name, name);
    CountMentions(Flat(s.batches), name, t, kind);
    MentionsConcat(Flat(s.batches), s.flight, name, kind);
  }

  /** If moreover each batch received is about one cell, each kind of command on each topic is
      accounted for: row 0 counts "news", row 1 "updates" and row 2 "warnings".  File, memory and
      notifications in flight together count the file's count at the start and the successful commands
      of that kind on that topic. */
  lemma KindAccounts(names: seq<string>, file: string, events: seq<Event>, run: seq<System>,
                     name: string, t: nat, kind: char)
    requires IsRun(names, file, events, run) && WritesSucceed(events)
    requires t < 3 && name == ["news", "updates", "warnings"][t] && Counted(kind)
    requires Stored(file, t, kind) + |events| <= LLONG_MAX
    requires AllBatchesKnown(run[|events|].batches)
    requires forall k :: 0 <= k < |run[|events|].batches| ==> Uniform(run[|events|].batches[k])
    ensures
      var s := run[|events|];
      && Shaped(names, s)
      && Cell(s, t, kind) + Mentions(s.flight, name, kind) ==
         Stored(file, t, kind) + Commanded(names, AtBroker(events), name, kind)
  {
    CellAccounts(names, file, events, run, t, kind);
    AttributedMentions(run[|events|], name, t, kind);
    ToldCounts(names, file, events, run, |events|, name, kind);
    assert events[..|events|] == events;
  }

  function RowTotal(r: Row): nat {
    r.publish + r.subscribe + r.unsubscribe + r.topicExists + r.subscriberNumber
  }

  function Total(rows: seq<Row>): nat
    requires |rows| == 3
  {
    RowTotal(rows[0]) + RowTotal(rows[1]) + RowTotal(rows[2])
  }

  ghost function AttributedToRow(batches: seq<seq<string>>, t: nat): nat
    requires AllBatchesKnown(batches)
  {
    Attributed(batches, (t, '2')) + Attributed(batches, (t, '3')) + Attributed(batches, (t, '6'))
    + Attributed(batches, (t, '4')) + Attributed(batches, (t, '5'))
  }

  /** Every received notification was added to some cell. */
  lemma {:induction false} AllAttributed(batches: seq<seq<string>>)
    requires AllBatchesKnown(batches)
    ensures AttributedToRow(batches, 0) + AttributedToRow(batches, 1) + AttributedToRow(batches, 2) == |Flat(batches)|
  {
    if batches != [] {
      var n := |batches| - 1;
      AllAttributed(batches[..n]);
      RowGrows(batches, 0);
      RowGrows(batches, 1);
      RowGrows(batches, 2);
    }
  }

  lemma RowGrows(batches: seq<seq<string>>, t: nat)
    requires AllBatchesKnown(batches) && batches != []
    ensures
      var last := batches[|batches| - 1];
      AttributedToRow(batches, t) == AttributedToRow(batches[..|batches| - 1], t)
        + if last != [] && CellOf(last[0]).value.0 == t then |last| else 0
  {
  }

  lemma RowAccounts(names: seq<string>, file: string, events: seq<Event>, run: seq<System>, t: nat)
    requires IsRun(names, file, events, run) && WritesSucceed(events)
    requires t < 3 && forall kind :: Counted(kind) ==> Stored(file, t, kind) + |events| <= LLONG_MAX
    ensures
      var s := run[|events|];
      && Shaped(names, s)
      && RowTotal(FileRows(s.file)[t]) + RowTotal(s.rows[t]) == RowTotal(FileRows(file)[t]) + AttributedToRow(s.batches, t)
  {
    forall kind | Counted(kind)
      ensures ShapedAndAccounted(names, run[|events|], Stored(file, t, kind), t, kind)
    {
      RunAccounted(names, file, events, run, t, kind, |events|);
    }
    RunShaped(names, file, events, run, |events|);
    RowSums(names, run[|events|], file, t);
  }

  lemma RowSums(names: seq<string>, s: System, file: string, t: nat)
    requires Shaped(names, s) && FileOk(file) && t < 3
    requires forall kind :: Counted(kind) ==> ShapedAndAccounted(names, s, Stored(file, t, kind), t, kind)
    ensures RowTotal(FileRows(s.file)[t]) + RowTotal(s.rows[t]) == RowTotal(FileRows(file)[t]) + AttributedToRow(s.batches, t)
  {
    forall kind | Counted(kind)
      ensures Counter(FileRows(s.file)[t], kind) + Counter(s.rows[t], kind)
           == Counter(FileRows(file)[t], kind) + Attributed(s.batches, (t, kind))
    {
      assert ShapedAndAccounted(names, s, Stored(file, t, kind), t, kind);
      StoredIs(s.file, t, kind);
      StoredIs(file, t, kind);
    }
    RowSum(FileRows(s.file)[t], s.rows[t], FileRows(file)[t], s.batches, t);
  }

  lemma RowSum(a: Row, b: Row, base: Row, batches: seq<seq<string>>, t: nat)
    requires AllBatchesKnown(batches)
    requires forall kind :: Counted(kind) ==>
      Counter(a, kind) + Counter(b, kind) == Counter(base, kind) + Attributed(batches, (t, kind))
    ensures RowTotal(a) + RowTotal(b) == RowTotal(base) + AttributedToRow(batches, t)
  {
    assert Counter(a, '2') + Counter(b, '2') == Counter(base, '2') + Attributed(batches, (t, '2'));
    assert Counter(a, '3') + Counter(b, '3') == Counter(base, '3') + Attributed(batches, (t, '3'));
    assert Counter(a, '4') + Counter(b, '4') == Counter(base, '4') + Attributed(batches, (t, '4'));
    assert Counter(a, '5') + Counter(b, '5') == Counter(base, '5') + Attributed(batches, (t, '5'));
    assert Counter(a, '6') + Counter(b, '6') == Counter(base, '6') + Attributed(batches, (t, '6'));
  }

  /** The whole system's account, whatever the batches: file totals, counters in memory and
      notifications in flight together are the file's initial totals and the successful commands. */
  lemma SystemAccounts(names: seq<string>, file: string, events: seq<Event>, run: seq<System>)
    requires IsRun(names, file, events, run) && WritesSucceed(events)
    requires forall t, kind :: 0 <= t < 3 && Counted(kind) ==> Stored(file, t, kind) + |events| <= LLONG_MAX
    ensures
      var s := run[|events|];
      && Shaped(names, s)
      && (if s.file == "" then 0 else Total(Parsed(s.file))) + Total(s.rows) + |s.flight|
         == (if file == "" then 0 else Total(Parsed(file))) + B.Successes(names, AtBroker(events))
  {
    var s := run[|events|];
    RunInOrder(names, file, events, run, |events|);
    BrokerRuns(names, file, events, run, |events|);
    assert events[..|events|] == events;
    B.OneNoticeEach(names, AtBroker(events));
    AllAttributed(s.batches);
    RowAccounts(names, file, events, run, 0);
    RowAccounts(names, file, events, run, 1);
    RowAccounts(names, file, events, run, 2);
    StoredTotal(file);
    StoredTotal(s.file);
  }

  lemma StoredTotal(file: string)
    requires FileOk(file)
    ensures Total(FileRows(file)) == if file == "" then 0 else Total(Parsed(file))
  {
  }

  lemma FailedWrite(names: seq<string>, s: System)
    requires KnownTopics(names) && Shaped(names, s)
    ensures Step(names, s, Update(true, false)) == s.(rows := [ZERO, ZERO, ZERO])
  {
  }

  /** An update that reads the file and cannot write it loses what is in memory: the totals are kept
      exactly when nothing was counted there. */
  lemma FailedWriteLoses(names: seq<string>, s: System)
    requires KnownTopics(names) && Shaped(names, s)
    ensures
      var s' := Step(names, s, Update(true, false));
      s'.file == s.file && (Total(s'.rows) == Total(s.rows) <==> Total(s.rows) == 0)
  {
    FailedWrite(names, s);
    assert Total([ZERO, ZERO, ZERO]) == 0;
  }
}
