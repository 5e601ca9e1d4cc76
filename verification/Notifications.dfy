/** The stats manager counting notifications. */
module Notifications {
  import opened Options
  import opened CStrings
  import opened StatsFile
  import opened Batch

  const RECEIVE_BUFFER_SIZE: nat := 2000

  /** The row of a topic. */
  function TopicRow(name: string): (t: Option<nat>)
    ensures t.Some? ==> t.value < 3
  {
    if name == "news" then Some(0) else if name == "updates" then Some(1) else if name == "warnings" then Some(2) else None
  }

  /** Each of the three topics has a row of its own, and there are no others. */
  lemma RowsOfTopics(name: string, other: string)
    ensures TopicRow("news") == Some(0) && TopicRow("updates") == Some(1) && TopicRow("warnings") == Some(2)
    ensures TopicRow(name).Some? <==> name in ["news", "updates", "warnings"]
    ensures TopicRow(name).Some? && TopicRow(name) == TopicRow(other) ==> name == other
  {
    var topics := ["news", "updates", "warnings"];
    assert topics[0] == "news" && topics[1] == "updates" && topics[2] == "warnings";
  }

  predicate Counted(kind: char) {
    '2' <= kind <= '6'
  }

  /** The counter of a kind of command. */
  function Counter(r: Row, kind: char): uint64
    requires Counted(kind)
  {
    match kind
    case '2' => r.publish
    case '3' => r.subscribe
    case '4' => r.topicExists
    case '5' => r.subscriberNumber
    case _ => r.unsubscribe
  }

  /** A notification: the kind of the command, '#', and the topic. */
  predicate Notification(n: string) {
    2 <= |n| && NUL !in n
  }

  /** The cell that a notification is about. */
  function CellOf(n: string): (cell: Option<(nat, char)>)
    requires Notification(n)
    ensures cell.Some? ==> cell.value.0 < 3 && Counted(cell.value.1)
  {
    match TopicRow(n[2..])
    case None => None
    case Some(t) => if Counted(n[0]) then Some((t, n[0])) else None
  }

  /** One more in one counter. */
  function Bumped(r: Row, kind: char): Row
    requires Counted(kind)
  {
    match kind
    case '2' => r.(publish := Wrap(r.publish + 1))
    case '3' => r.(subscribe := Wrap(r.subscribe + 1))
    case '4' => r.(topicExists := Wrap(r.topicExists + 1))
    case '5' => r.(subscriberNumber := Wrap(r.subscriberNumber + 1))
    case _ => r.(unsubscribe := Wrap(r.unsubscribe + 1))
  }

  function Noted(rows: seq<Row>, n: string): (rows': seq<Row>)
    requires |rows| == 3 && Notification(n)
    ensures |rows'| == 3
  {
    match CellOf(n)
    case None => rows
    case Some(cell) => rows[cell.0 := Bumped(rows[cell.0], cell.1)]
  }

  /** Counting the same notification `times` times. */
  function Repeated(rows: seq<Row>, n: string, times: nat): (rows': seq<Row>)
    requires |rows| == 3 && Notification(n)
    ensures |rows'| == 3
  {
    if times == 0 then rows else Noted(Repeated(rows, n, times - 1), n)
  }

  method GetTopicStats(topicName: array<char>, ghost name: string) returns (t: Option<nat>)
    requires topicName[..] == name + [NUL]
    ensures t == TopicRow(name)
    ensures match name case "news" => t == Some(0) case "updates" => t == Some(1) case "warnings" => t == Some(2) case _ => t == None
  {
    var s := topicName[..topicName.Length - 1];
    assert s == name;
    if s == "news" {
      t := Some(0);
    } else if s == "updates" {
      t := Some(1);
    } else if s == "warnings" {
      t := Some(2);
    } else {
      t := None;
    }
  }

  /** The row that a notification names has one more in the counter of its kind, modulo 2^64, and the
      others are as before. */
  lemma NotedIs(rows: seq<Row>, n: string, t: nat)
    requires |rows| == 3 && Notification(n) && t < 3
    ensures
      var r, r' := rows[t], Noted(rows, n)[t];
      if n[2..] != ["news", "updates", "warnings"][t] then r' == r
      else
        match n[0]
        case '2' => r' == r.(publish := (r.publish + 1) % 0x1_0000_0000_0000_0000)
        case '3' => r' == r.(subscribe := (r.subscribe + 1) % 0x1_0000_0000_0000_0000)
        case '4' => r' == r.(topicExists := (r.topicExists + 1) % 0x1_0000_0000_0000_0000)
        case '5' => r' == r.(subscriberNumber := (r.subscriberNumber + 1) % 0x1_0000_0000_0000_0000)
        case '6' => r' == r.(unsubscribe := (r.unsubscribe + 1) % 0x1_0000_0000_0000_0000)
        case _ => r' == r
  {
    RowsOfTopics(n[2..], ["news", "updates", "warnings"][t]);
  }

  method HandleNotification(buf: array<char>, at: nat, rows: array<Row>, ghost n: string)
    requires Holds(buf[..], at, n) && Notification(n) && rows.Length == 3
    modifies rows
    ensures rows[..] == Noted(old(rows[..]), n)
  {
    var kind := buf[at];
    var length := StrLen(buf, at, n);
    var topicName := new char[length + 1 - 2];
    Copy(topicName, 0, buf, at + 2, length + 1 - 2);
    assert topicName[..] == n[2..] + [NUL];
    var t := GetTopicStats(topicName, n[2..]);
    if t == None {
      return;
    }
    if kind == '2' {
      rows[t.value] := rows[t.value].(publish := Wrap(rows[t.value].publish + 1));
    } else if kind == '3' {
      rows[t.value] := rows[t.value].(subscribe := Wrap(rows[t.value].subscribe + 1));
    } else if kind == '4' {
      rows[t.value] := rows[t.value].(topicExists := Wrap(rows[t.value].topicExists + 1));
    } else if kind == '5' {
      rows[t.value] := rows[t.value].(subscriberNumber := Wrap(rows[t.value].subscriberNumber + 1));
    } else if kind == '6' {
      rows[t.value] := rows[t.value].(unsubscribe := Wrap(rows[t.value].unsubscribe + 1));
    }
  }

  predicate AllNotifications(ns: seq<string>) {
    forall k :: 0 <= k < |ns| ==> Notification(ns[k])
  }

  /** The effect of a received batch: the source counts the first notification of the batch once for
      each notification in it. */
  function Handled(rows: seq<Row>, ns: seq<string>): (rows': seq<Row>)
    requires |rows| == 3 && AllNotifications(ns)
    ensures |rows'| == 3
  {
    if ns == [] then rows else Repeated(rows, ns[0], |ns|)
  }

  /** The state of the loop at index `i`, with `done` frames counted. */
  ghost predicate Counting(content: seq<char>, ns: seq<string>, i: nat, done: nat) {
    && i < |content| && done <= |ns| && CommandsIn(content[i..]) == Some(ns[done..])
    && (i == 0 <==> done == 0) && AllNotifications(ns)
    && (ns != [] ==> Holds(content, 1, ns[0]))
  }

  lemma CountingStarts(content: seq<char>, ns: seq<string>)
    requires CommandsIn(content) == Some(ns) && AllNotifications(ns)
    ensures Counting(content, ns, 0, 0)
  {
    assert content[0..] == content && ns[0..] == ns;
    if content[0] == '#' {
      NextCommandIs(content, 0, ns, 0);
    }
  }

  lemma CountingEnds(content: seq<char>, ns: seq<string>, i: nat, done: nat)
    requires Counting(content, ns, i, done) && content[i] != '#'
    ensures done == |ns| && (i != 0 <==> ns != [])
  {
    assert ns[done..] == [];
  }

  /** One turn of the loop. */
  method CountNext(buf: array<char>, i: nat, rows: array<Row>, ghost was: seq<Row>, ghost ns: seq<string>, ghost done: nat)
      returns (next: nat)
    requires Counting(buf[..], ns, i, done) && buf[i] == '#' && rows.Length == 3 == |was|
    requires ns != [] ==> rows[..] == Repeated(was, ns[0], done)
    modifies rows
    ensures i < next && Counting(buf[..], ns, next, done + 1) && ns != []
    ensures rows[..] == Repeated(was, ns[0], done + 1)
  {
    NextCommandIs(buf[..], i, ns, done);
    HandleNotification(buf, 1, rows, ns[0]);
    next := NextFrame(buf, i);
  }

  method ClearFront(buf: array<char>)
    requires RECEIVE_BUFFER_SIZE <= buf.Length
    requires forall j :: RECEIVE_BUFFER_SIZE <= j < buf.Length ==> buf[j] == NUL
    modifies buf
    ensures buf[..] == Zeros(buf.Length)
  {
    for j := 0 to RECEIVE_BUFFER_SIZE
      invariant forall k :: 0 <= k < j || RECEIVE_BUFFER_SIZE <= k < buf.Length ==> buf[k] == NUL
    {
      buf[j] := NUL;
    }
  }

  method CountAll(buf: array<char>, rows: array<Row>, ghost ns: seq<string>) returns (i: nat)
    requires Counting(buf[..], ns, 0, 0) && rows.Length == 3
    modifies rows
    ensures rows[..] == Handled(old(rows[..]), ns) && (i != 0 <==> ns != [])
  {
    i := 0;
    ghost var done, was := 0, rows[..];
    while buf[i] == '#'
      invariant Counting(buf[..], ns, i, done)
      invariant if ns == [] then rows[..] == was else rows[..] == Repeated(was, ns[0], done)
      decreases buf.Length - i
    {
      i := CountNext(buf, i, rows, was, ns, done);
      done := done + 1;
    }
    CountingEnds(buf[..], ns, i, done);
  }

  /** The loop over a received batch, and clearing the part of the buffer that a batch can fill. */
  method HandleNotifications(buf: array<char>, rows: array<Row>, ghost ns: seq<string>) returns (received: bool)
    requires rows.Length == 3 && 2000 <= buf.Length
    requires CommandsIn(buf[..]) == Some(ns) && AllNotifications(ns)
    requires forall j :: 2000 <= j < buf.Length ==> buf[j] == NUL
    modifies buf, rows
    ensures rows[..] == Handled(old(rows[..]), ns)
    ensures received <==> ns != []
    ensures buf[..] == Zeros(buf.Length)
  {
    CountingStarts(buf[..], ns);
    var i := CountAll(buf, rows, ns);
    ClearFront(buf);
    received := i != 0;
  }

  /** Counting each notification once. */
  function Folded(rows: seq<Row>, ns: seq<string>): (rows': seq<Row>)
    requires |rows| == 3 && AllNotifications(ns)
    ensures |rows'| == 3
  {
    if ns == [] then rows else Noted(Folded(rows, ns[..|ns| - 1]), ns[|ns| - 1])
  }

  /** The notifications about a cell. */
  function Count(ns: seq<string>, cell: (nat, char)): (n: nat)
    requires AllNotifications(ns)
    ensures n <= |ns|
  {
    if ns == [] then 0
    else Count(ns[..|ns| - 1], cell) + if CellOf(ns[|ns| - 1]) == Some(cell) then 1 else 0
  }

  /** The notifications of a kind of command on a topic. */
  function Mentions(ns: seq<string>, name: string, kind: char): nat
    requires AllNotifications(ns)
  {
    if ns == [] then 0
    else
      var last := ns[|ns| - 1];
      Mentions(ns[..|ns| - 1], name, kind) + if last[2..] == name && last[0] == kind then 1 else 0
  }

  /** Two topics never share a cell: those of a cell are those that mention its topic and kind. */
  lemma {:induction false} CountMentions(ns: seq<string>, name: string, t: nat, kind: char)
    requires AllNotifications(ns) && TopicRow(name) == Some(t) && Counted(kind)
    ensures Count(ns, (t, kind)) == Mentions(ns, name, kind)
  {
    if ns != [] {
      CountMentions(ns[..|ns| - 1], name, t, kind);
      RowsOfTopics(name, ns[|ns| - 1][2..]);
    }
  }

  /** No counter wraps round in `more` increments. */
  ghost predicate Room(rows: seq<Row>, more: nat) {
    |rows| == 3 && forall t, kind :: 0 <= t < 3 && Counted(kind) ==> Counter(rows[t], kind) + more < 0x1_0000_0000_0000_0000
  }

  lemma NotedCounts(rows: seq<Row>, n: string, t: nat, kind: char)
    requires |rows| == 3 && Notification(n) && t < 3 && Counted(kind)
    requires Counter(rows[t], kind) + 1 < 0x1_0000_0000_0000_0000
    ensures Counter(Noted(rows, n)[t], kind) == Counter(rows[t], kind) + if CellOf(n) == Some((t, kind)) then 1 else 0
  {
  }

  lemma {:induction false} FoldedCounts(rows: seq<Row>, ns: seq<string>, t: nat, kind: char)
    requires AllNotifications(ns) && t < 3 && Counted(kind)
    requires |rows| == 3 && Counter(rows[t], kind) + |ns| < 0x1_0000_0000_0000_0000
    ensures Counter(Folded(rows, ns)[t], kind) == Counter(rows[t], kind) + Count(ns, (t, kind))
  {
    if ns != [] {
      FoldedCounts(rows, ns[..|ns| - 1], t, kind);
      NotedCounts(Folded(rows, ns[..|ns| - 1]), ns[|ns| - 1], t, kind);
    }
  }

  lemma {:induction false} RepeatedCounts(rows: seq<Row>, n: string, times: nat, t: nat, kind: char)
    requires Notification(n) && t < 3 && Counted(kind)
    requires |rows| == 3 && Counter(rows[t], kind) + times < 0x1_0000_0000_0000_0000
    ensures Counter(Repeated(rows, n, times)[t], kind) == Counter(rows[t], kind) + if CellOf(n) == Some((t, kind)) then times else 0
  {
    if times > 0 {
      RepeatedCounts(rows, n, times - 1, t, kind);
      NotedCounts(Repeated(rows, n, times - 1), n, t, kind);
    }
  }

  ghost predicate SameCounters(a: Row, b: Row) {
    forall kind :: Counted(kind) ==> Counter(a, kind) == Counter(b, kind)
  }

  lemma SameRow(a: Row, b: Row)
    requires SameCounters(a, b)
    ensures a == b
  {
    assert Counter(a, '2') == Counter(b, '2') && Counter(a, '3') == Counter(b, '3') && Counter(a, '4') == Counter(b, '4');
    assert Counter(a, '5') == Counter(b, '5') && Counter(a, '6') == Counter(b, '6');
  }

  /** All notifications of the batch are about the same cell, or none about any. */
  ghost predicate Uniform(ns: seq<string>)
    requires AllNotifications(ns)
  {
    forall k :: 0 <= k < |ns| ==> CellOf(ns[k]) == CellOf(ns[0])
  }

  lemma {:induction false} CountAllOrNone(ns: seq<string>, cell: (nat, char))
    requires AllNotifications(ns)
    ensures Count(ns, cell) == |ns| <==> forall k :: 0 <= k < |ns| ==> CellOf(ns[k]) == Some(cell)
    ensures Count(ns, cell) == 0 <==> forall k :: 0 <= k < |ns| ==> CellOf(ns[k]) != Some(cell)
  {
    if ns != [] {
      CountAllOrNone(ns[..|ns| - 1], cell);
    }
  }

  /** What the loop as written does to each counter: all of the batch goes to the first cell. */
  lemma HandledCounts(rows: seq<Row>, ns: seq<string>, t: nat, kind: char)
    requires AllNotifications(ns) && t < 3 && Counted(kind)
    requires |rows| == 3 && Counter(rows[t], kind) + |ns| < 0x1_0000_0000_0000_0000
    ensures Counter(Handled(rows, ns)[t], kind) ==
      Counter(rows[t], kind) + if ns != [] && CellOf(ns[0]) == Some((t, kind)) then |ns| else 0
  {
    if ns != [] {
      RepeatedCounts(rows, ns[0], |ns|, t, kind);
    }
  }

  lemma UniformCounts(ns: seq<string>, cell: (nat, char))
    requires AllNotifications(ns) && Uniform(ns)
    ensures Count(ns, cell) == if ns != [] && CellOf(ns[0]) == Some(cell) then |ns| else 0
  {
    CountAllOrNone(ns, cell);
  }

  lemma NotUniformCounts(ns: seq<string>) returns (cell: (nat, char))
    requires AllNotifications(ns) && !Uniform(ns)
    ensures cell.0 < 3 && Counted(cell.1)
    ensures Count(ns, cell) != if ns != [] && CellOf(ns[0]) == Some(cell) then |ns| else 0
  {
    var k :| 0 <= k < |ns| && CellOf(ns[k]) != CellOf(ns[0]);
    if CellOf(ns[0]).Some? {
      cell := CellOf(ns[0]).value;
    } else {
      cell := CellOf(ns[k]).value;
    }
    CountAllOrNone(ns, cell);
  }

  /** The loop counts a batch as it should, each notification in its own cell, exactly when all
      notifications of the batch are about the same cell. */
  lemma AttributionExact(rows: seq<Row>, ns: seq<string>)
    requires AllNotifications(ns) && Room(rows, |ns|)
    ensures Handled(rows, ns) == Folded(rows, ns) <==> Uniform(ns)
  {
    if Uniform(ns) {
      forall t | 0 <= t < 3 ensures Handled(rows, ns)[t] == Folded(rows, ns)[t] {
        forall kind | Counted(kind) ensures Counter(Handled(rows, ns)[t], kind) == Counter(Folded(rows, ns)[t], kind) {
          HandledCounts(rows, ns, t, kind);
          FoldedCounts(rows, ns, t, kind);
          UniformCounts(ns, (t, kind));
        }
        SameRow(Handled(rows, ns)[t], Folded(rows, ns)[t]);
      }
    } else {
      var cell := NotUniformCounts(ns);
      HandledCounts(rows, ns, cell.0, cell.1);
      FoldedCounts(rows, ns, cell.0, cell.1);
    }
  }

  /** One publication and one subscription received together are counted as two publications. */
  lemma MiscountedBatch(rows: seq<Row>)
    requires Room(rows, 2)
    ensures
      var ns := ["2#news", "3#updates"];
      && AllNotifications(ns) && Handled(rows, ns) != Folded(rows, ns)
      && Handled(rows, ns)[0].publish == rows[0].publish + 2
      && Handled(rows, ns)[1].subscribe == rows[1].subscribe
  {
    var ns := ["2#news", "3#updates"];
    assert "2#news"[2..] == "news" && "3#updates"[2..] == "updates";
    assert CellOf(ns[0]) == Some((0, '2')) && CellOf(ns[1]) == Some((1, '3'));
    AttributionExact(rows, ns);
    HandledCounts(rows, ns, 0, '2');
    HandledCounts(rows, ns, 1, '3');
  }
}
