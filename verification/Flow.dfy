/** Conservation and order: in every state of every run each stream of published elements is what
    was sent, then what the consumer carries, then what the buffer holds, then what the stream's
    own thread carries, then what that thread dropped when it gave up, then what is queued. */
module Flow {
  import opened Options
  import opened Program
  import opened Discipline
  import opened Machine
  import opened Locking
  import opened Knowledge
  import R = Ring

  /** The elements of stream `x`, in order. */
  ghost function Of(c: Config, es: seq<Element>, x: nat): seq<Element> {
    if es == [] then []
    else (if Stream(c, es[0]) == x then [es[0]] else []) + Of(c, es[1..], x)
  }

  lemma {:induction false} OfConcat(c: Config, a: seq<Element>, b: seq<Element>, x: nat)
    ensures Of(c, a + b, x) == Of(c, a, x) + Of(c, b, x)
  {
    if a == [] {
      assert a + b == b;
    } else {
      assert (a + b)[1..] == a[1..] + b;
      OfConcat(c, a[1..], b, x);
    }
  }

  /** The messages queued on topic `t`, as elements. */
  ghost function Queued(t: nat, q: seq<Message>): (es: seq<Element>)
    ensures |es| == |q|
  {
    seq(|q|, k requires 0 <= k < |q| => Element(Some(q[k]), Subscribers(t)))
  }

  ghost function Backlog(c: Config, d: Data, x: nat): seq<Element>
    requires Sized(c, d) && x <= c.topics
  {
    if x < c.topics then Queued(x, d.queues[x]) else []
  }

  ghost function Carried(hand: Option<Element>): seq<Element> {
    if hand.Some? then [hand.value] else []
  }

  /** What the consumer carries and the buffer holds, unless the consumer's last `get` read an
      empty buffer. */
  ghost function Underway(d: Data, consumer: Thread): seq<Element>
    requires !d.stale ==> R.Coherent(d.ring)
  {
    if d.stale then [] else Carried(consumer.hand) + R.Contents(d.ring)
  }

  ghost function Consumer(c: Config, s: State): Thread
    requires Shape(c, s)
  {
    s.threads[ConsumerThread(c)]
  }

  /** The consumer has sent the element of its last `get`. */
  predicate SentLast(p: Point) {
    p == Fetch(FinalLeave) || (p.Quit? && p.quit != Unstarted)
  }

  /** What was sent as a consequence of a `get` on an empty buffer, and is nobody's message. */
  ghost function Extra(c: Config, s: State): seq<Element>
    requires Shape(c, s)
  {
    if s.data.stale && SentLast(Consumer(c, s).point) && s.data.sent != [] then [s.data.sent[|s.data.sent| - 1]] else []
  }

  /** What was sent otherwise. */
  ghost function Genuine(c: Config, s: State): seq<Element>
    requires Shape(c, s)
  {
    s.data.sent[..|s.data.sent| - |Extra(c, s)|]
  }

  /** After the last `get` read an empty buffer, what it read is sent, too. */
  ghost predicate ExtraOk(c: Config, s: State)
    requires Shape(c, s)
  {
    s.data.stale && SentLast(Consumer(c, s).point) ==> s.data.sent != []
  }

  ghost predicate StreamFlows(c: Config, s: State, x: nat)
    requires Shape(c, s) && BufferOk(c, s) && x <= c.topics
  {
    s.data.published[x] ==
      Of(c, Genuine(c, s), x) + Of(c, Underway(s.data, s.threads[ConsumerThread(c)]), x)
      + Real(s.threads[x].hand) + s.data.dropped[x] + Backlog(c, s.data, x)
  }

  /** A thread that dropped its element is on its way out. */
  predicate GaveUp(p: Point) {
    match p
    case Ring(at) => at == RingLeave
    case Queue(at) => at == LoopEnter || at == LoopRead
    case Quit(_) => true
    case _ => false
  }

  ghost predicate DropsOk(c: Config, s: State, x: nat)
    requires Shape(c, s) && x <= c.topics
  {
    s.data.dropped[x] != [] ==>
      |s.data.dropped[x]| == 1 && s.data.flag && x < c.topics && GaveUp(s.threads[x].point)
  }

  ghost predicate NoNull(es: seq<Element>) {
    forall e :: e in es ==> e.message.Some?
  }

  ghost predicate Flows(c: Config, s: State)
    requires Shape(c, s) && BufferOk(c, s)
  {
    && (forall x :: 0 <= x <= c.topics ==> StreamFlows(c, s, x))
    && (forall x :: 0 <= x <= c.topics ==> DropsOk(c, s, x))
    && ExtraOk(c, s) && NoNull(Genuine(c, s)) && NoNull(Underway(s.data, s.threads[ConsumerThread(c)]))
  }

  lemma EdgeGaveUp(c: Config, i: nat, p: Point, q: Point)
    requires Fits(c, i, p) && Edge(c, i, p, q) && i < c.topics
    ensures p == Ring(RingDrop) ==> GaveUp(q)
    ensures GaveUp(p) ==> GaveUp(q) || p == Queue(LoopRead)
  {
  }

  /** Running thread `i` at `p` executes `op`: what it knows, and what becomes of the shared data
      and of the hands. */
  ghost predicate Moved(c: Config, s: State, i: nat, op: Op, s': State) {
    && Shape(c, s) && Shape(c, s') && i < |s.threads|
    && BufferOk(c, s) && BufferOk(c, s') && Flows(c, s)
    && Fits(c, i, s.threads[i].point) && OpAt(c, i, s.threads[i].point, op)
    && Knows(c, s.data, i, s.threads[i]) && HandOk(c, s.data.flag, i, s.threads[i])
    && (s.data.stale ==> AfterLastGet(Consumer(c, s).point))
    && OpGuard(c, s, i, op) && s'.data == DataAfter(c, s, i, op) && Sends(c, s, i, op, s')
    && s'.threads[i].hand == HandAfter(c, s.data, s.threads[i].hand, op)
    && forall j :: 0 <= j < |s.threads| && j != i ==> s'.threads[j].hand == s.threads[j].hand
  }

  /** Only a delivery adds to what was sent, and to what was genuinely sent only if the consumer's last
      `get` did not read an empty buffer. */
  ghost predicate Sends(c: Config, s: State, i: nat, op: Op, s': State)
    requires Shape(c, s) && Shape(c, s') && i < |s.threads|
  {
    if op == Deliver && !s.data.stale then s.threads[i].hand.Some? && Genuine(c, s') == Genuine(c, s) + [s.threads[i].hand.value]
    else Genuine(c, s') == Genuine(c, s)
  }

  ghost predicate OpAt(c: Config, i: nat, p: Point, op: Op) {
    Instruction(c, i, p).Do? && Instruction(c, i, p).op == op
  }

  lemma EdgeSentLast(c: Config, i: nat, p: Point, q: Point)
    requires Fits(c, i, p) && i == ConsumerThread(c) && Edge(c, i, p, q)
    ensures AfterLastGet(p) && p != Sending(true, Delivered) && p != Fetch(TakenRead) ==> (SentLast(q) <==> SentLast(p))
    ensures p == Sending(true, Delivered) ==> SentLast(q) && !SentLast(p)
    ensures p == Fetch(TakenRead) || p == Fetch(FillTake) ==> !SentLast(q) && !SentLast(p)
    ensures p.Sending? && !p.final ==> !AfterLastGet(p)
    ensures p == Sending(true, Delivered) <==> OpAt(c, i, p, Deliver) && AfterLastGet(p)
  {
  }

  /** What a step sends. */
  lemma StepSends(c: Config, s: State, i: nat, g: Point, w: nat, s': State)
    requires AllPlaced(c, s) && BufferOk(c, s) && ExtraOk(c, s) && i < |s.threads| && Step(c, s, i, g, w, s')
    ensures Shape(c, s') && ExtraOk(c, s')
    ensures
      var delivers := s.threads[i].status == Running && OpAt(c, i, s.threads[i].point, Deliver);
      if delivers && !s.data.stale then
        s.threads[i].hand.Some? && Genuine(c, s') == Genuine(c, s) + [s.threads[i].hand.value]
      else Genuine(c, s') == Genuine(c, s)
  {
    StepPlaces(c, s, i, g, w, s');
    StepMoves(c, s, i, g, w, s');
    StepEdge(c, s, i, g, w, s');
    assert Placed(c, s, i);
    StepBuffer(c, s, i, g, w, s');
    HandOps(c, i, s.threads[i].point);
    if i == ConsumerThread(c) && s.threads[i].status != Asleep {
      EdgeSentLast(c, i, s.threads[i].point, s'.threads[i].point);
    }
  }

  lemma StepMoved(c: Config, s: State, i: nat, g: Point, w: nat, s': State, op: Op)
    requires Safe(c, s) && Flows(c, s) && i < |s.threads| && Step(c, s, i, g, w, s')
    requires s.threads[i].status == Running && OpAt(c, i, s.threads[i].point, op)
    ensures Moved(c, s, i, op, s')
  {
    StepPlaces(c, s, i, g, w, s');
    StepKeepsBuffer(c, s, i, g, w, s');
    StepMoves(c, s, i, g, w, s');
    StepSends(c, s, i, g, w, s');
    assert Placed(c, s, i) && Knows(c, s.data, i, s.threads[i]) && HandOk(c, s.data.flag, i, s.threads[i]);
  }

  lemma PutUnderway(c: Config, s: State, i: nat, s': State)
    requires Moved(c, s, i, Put, s')
    ensures i <= c.topics && s.threads[i].hand.Some? && s.threads[i].hand.value.message.Some?
    ensures Stream(c, s.threads[i].hand.value) == i
    ensures Underway(s'.data, Consumer(c, s')) == Underway(s.data, Consumer(c, s)) + [s.threads[i].hand.value]
  {
    HandOps(c, i, s.threads[i].point);
    R.PutAppends(s.data.ring, s.threads[i].hand.value);
  }

  lemma PutFlows(c: Config, s: State, i: nat, s': State, x: nat)
    requires Moved(c, s, i, Put, s') && x <= c.topics
    ensures StreamFlows(c, s', x)
  {
    PutUnderway(c, s, i, s');
    assert StreamFlows(c, s, x);
    var e, u := s.threads[i].hand.value, Underway(s.data, Consumer(c, s));
    OfSnoc(c, u, e, i, x);
    Regroup(Of(c, Genuine(c, s), x), Of(c, u, x), if i == x then [e] else []);
  }

  lemma OfSnoc(c: Config, es: seq<Element>, e: Element, i: nat, x: nat)
    requires Stream(c, e) == i
    ensures Of(c, es + [e], x) == Of(c, es, x) + if i == x then [e] else []
  {
    OfConcat(c, es, [e], x);
    assert Of(c, [e], x) == if i == x then [e] else [];
  }

  lemma Regroup<T>(a: seq<T>, b: seq<T>, e: seq<T>)
    ensures a + (b + e) == a + b + e && (b + []) == b
  {
  }

  lemma GetUnderway(c: Config, s: State, i: nat, s': State)
    requires Moved(c, s, i, Get, s')
    ensures i == ConsumerThread(c)
    ensures Underway(s'.data, Consumer(c, s')) == Underway(s.data, Consumer(c, s))
  {
    HandOps(c, i, s.threads[i].point);
    assert !s.data.stale && s.threads[i].hand == None;
    if s.data.ring.count != 0 {
      R.GetRemoves(s.data.ring);
    }
  }

  lemma DeliverUnderway(c: Config, s: State, i: nat, s': State)
    requires Moved(c, s, i, Deliver, s')
    ensures i == ConsumerThread(c)
    ensures Genuine(c, s') + Underway(s'.data, Consumer(c, s')) == Genuine(c, s) + Underway(s.data, Consumer(c, s))
  {
    HandOps(c, i, s.threads[i].point);
    if !s.data.stale {
      var h, r := s.threads[i].hand.value, R.Contents(s.data.ring);
      assert (Genuine(c, s) + [h]) + r == Genuine(c, s) + ([h] + r);
    }
  }

  /** The consumer's own steps move elements along `sent` and `Underway`. */
  lemma ConsumerFlows(c: Config, s: State, s': State, x: nat)
    requires Shape(c, s) && Shape(c, s') && BufferOk(c, s) && BufferOk(c, s') && Flows(c, s) && x <= c.topics
    requires Genuine(c, s') + Underway(s'.data, Consumer(c, s')) == Genuine(c, s) + Underway(s.data, Consumer(c, s))
    requires s'.data.published == s.data.published && s'.data.dropped == s.data.dropped
    requires s'.data.queues == s.data.queues && s'.threads[x].hand == s.threads[x].hand
    ensures StreamFlows(c, s', x)
  {
    assert StreamFlows(c, s, x);
    OfConcat(c, Genuine(c, s), Underway(s.data, Consumer(c, s)), x);
    OfConcat(c, Genuine(c, s'), Underway(s'.data, Consumer(c, s')), x);
  }

  lemma DropUnderway(c: Config, s: State, i: nat, s': State)
    requires Moved(c, s, i, Drop, s')
    ensures i <= c.topics && s.data.dropped[i] == [] && Real(s'.threads[i].hand) == []
    ensures s'.data.dropped == s.data.dropped[i := Real(s.threads[i].hand)]
    ensures Underway(s'.data, Consumer(c, s')) == Underway(s.data, Consumer(c, s))
    ensures Backlog(c, s'.data, i) == Backlog(c, s.data, i)
  {
    HandOps(c, i, s.threads[i].point);
    assert DropsOk(c, s, i);
    assert s.data.dropped[i] + Real(s.threads[i].hand) == Real(s.threads[i].hand);
  }

  lemma Exchange<T>(a: seq<T>, b: seq<T>)
    ensures a + b + [] == a + [] + b
  {
  }

  lemma DropFlows(c: Config, s: State, i: nat, s': State, x: nat)
    requires Moved(c, s, i, Drop, s') && x <= c.topics
    ensures StreamFlows(c, s', x)
  {
    DropUnderway(c, s, i, s');
    assert StreamFlows(c, s, x);
    if i == x {
      Exchange(Of(c, Genuine(c, s), x) + Of(c, Underway(s.data, Consumer(c, s)), x), Real(s.threads[x].hand));
    }
  }

  lemma QueuedFirst(x: nat, q: seq<Message>, front: seq<Element>)
    requires q != []
    ensures front + [] + [] + Queued(x, q) == front + [Element(Some(q[0]), Subscribers(x))] + [] + Queued(x, q[1..])
  {
    assert Queued(x, q) == [Element(Some(q[0]), Subscribers(x))] + Queued(x, q[1..]);
  }

  lemma DequeueUnderway(c: Config, s: State, i: nat, s': State, t: nat)
    requires Moved(c, s, i, Dequeue(t), s')
    ensures i == t < c.topics && s.data.queues[i] != [] && s.threads[i].hand == None && s.data.dropped[i] == []
    ensures s'.threads[i].hand == Some(Element(Some(s.data.queues[i][0]), Subscribers(i)))
    ensures s'.data.queues == s.data.queues[i := s.data.queues[i][1..]]
    ensures Underway(s'.data, Consumer(c, s')) == Underway(s.data, Consumer(c, s))
  {
    HandOps(c, i, s.threads[i].point);
    assert DropsOk(c, s, i);
  }

  lemma DequeueFlows(c: Config, s: State, i: nat, s': State, t: nat, x: nat)
    requires Moved(c, s, i, Dequeue(t), s') && x <= c.topics
    ensures StreamFlows(c, s', x)
  {
    DequeueUnderway(c, s, i, s', t);
    assert StreamFlows(c, s, x);
    if i == x {
      QueuedFirst(x, s.data.queues[x], Of(c, Genuine(c, s), x) + Of(c, Underway(s.data, Consumer(c, s)), x));
    }
  }

  lemma QueuedSnoc(x: nat, q: seq<Message>, m: Message, front: seq<Element>)
    ensures front + Queued(x, q) + [Element(Some(m), Subscribers(x))] == front + Queued(x, q + [m])
  {
  }

  lemma EnqueueFlows(c: Config, s: State, i: nat, s': State, t: nat, m: Message, x: nat)
    requires Moved(c, s, i, Enqueue(t, m), s') && x <= c.topics
    ensures StreamFlows(c, s', x)
  {
    assert StreamFlows(c, s, x);
    EnqueueUnderway(c, s, i, s', t, m);
    if t == x {
      QueuedSnoc(x, s.data.queues[x], m,
        Of(c, Genuine(c, s), x) + Of(c, Underway(s.data, Consumer(c, s)), x) + Real(s.threads[x].hand) + s.data.dropped[x]);
    }
  }

  /** Apart from the queue and what was published, nothing changes. */
  lemma EnqueueUnderway(c: Config, s: State, i: nat, s': State, t: nat, m: Message)
    requires Moved(c, s, i, Enqueue(t, m), s')
    ensures Underway(s'.data, Consumer(c, s')) == Underway(s.data, Consumer(c, s))
    ensures forall j :: 0 <= j < |s.threads| ==> s'.threads[j].hand == s.threads[j].hand
    ensures Genuine(c, s') == Genuine(c, s) && s'.data.dropped == s.data.dropped
  {
  }

  lemma IssueFlows(c: Config, s: State, i: nat, s': State, socket: int, m: Message, x: nat)
    requires Moved(c, s, i, Issue(socket, m), s') && x <= c.topics
    ensures StreamFlows(c, s', x)
  {
    HandOps(c, i, s.threads[i].point);
    EdgeCarries(c, i, s.threads[i].point, Instruction(c, i, s.threads[i].point).next);
    assert StreamFlows(c, s, x) && DropsOk(c, s, x);
    if i == x {
      assert s.threads[i].hand == None && s.data.dropped[x] == [];
    }
  }

  /** Every other instruction leaves the streams alone. */
  ghost predicate Quiet(instr: Instr) {
    instr.Do? ==>
      match instr.op
      case Put => false
      case Get => false
      case Drop => false
      case Dequeue(_) => false
      case Enqueue(_, _) => false
      case Issue(_, _) => false
      case Deliver => false
      case _ => true
  }

  lemma QuietFlows(c: Config, s: State, i: nat, g: Point, w: nat, s': State, x: nat)
    requires Safe(c, s) && Safe(c, s') && Flows(c, s) && i < |s.threads| && Step(c, s, i, g, w, s') && x <= c.topics
    requires s.threads[i].status == Running ==> Quiet(Instruction(c, i, s.threads[i].point))
    ensures StreamFlows(c, s', x)
    ensures Genuine(c, s') == Genuine(c, s) && s'.data.dropped == s.data.dropped
    ensures Underway(s'.data, Consumer(c, s')) == Underway(s.data, Consumer(c, s))
  {
    StepMoves(c, s, i, g, w, s');
    StepSends(c, s, i, g, w, s');
    assert Placed(c, s, i) && StreamFlows(c, s, x) && HandOk(c, s.data.flag, i, s.threads[i]);
    if s.threads[i].status == Running && Instruction(c, i, s.threads[i].point).Do? {
      HandOps(c, i, s.threads[i].point);
      EdgeCarries(c, i, s.threads[i].point, s'.threads[i].point);
    }
  }

  lemma StepStream(c: Config, s: State, i: nat, g: Point, w: nat, s': State, x: nat)
    requires Safe(c, s) && Safe(c, s') && Flows(c, s) && i < |s.threads| && Step(c, s, i, g, w, s') && x <= c.topics
    ensures StreamFlows(c, s', x)
  {
    var instr := Instruction(c, i, s.threads[i].point);
    if s.threads[i].status != Running || Quiet(instr) {
      QuietFlows(c, s, i, g, w, s', x);
    } else {
      StepMoved(c, s, i, g, w, s', instr.op);
      MovedStream(c, s, i, s', instr.op, x);
    }
  }

  lemma MovedStream(c: Config, s: State, i: nat, s': State, op: Op, x: nat)
    requires Moved(c, s, i, op, s') && x <= c.topics && !Quiet(Instruction(c, i, s.threads[i].point))
    ensures StreamFlows(c, s', x)
  {
    match op
    case Put => PutFlows(c, s, i, s', x);
    case Get => GetUnderway(c, s, i, s'); ConsumerFlows(c, s, s', x);
    case Deliver => DeliverUnderway(c, s, i, s'); ConsumerFlows(c, s, s', x);
    case Drop => DropFlows(c, s, i, s', x);
    case Dequeue(t) => DequeueFlows(c, s, i, s', t, x);
    case Enqueue(t, m) => EnqueueFlows(c, s, i, s', t, m, x);
    case Issue(socket, m) => IssueFlows(c, s, i, s', socket, m, x);
    case _ =>
  }

  /** Only a `put` adds to what is sent or under way. */
  lemma MovedNoNull(c: Config, s: State, i: nat, s': State, op: Op)
    requires Moved(c, s, i, op, s') && !Quiet(Instruction(c, i, s.threads[i].point))
    ensures NoNull(Genuine(c, s') + Underway(s'.data, Consumer(c, s')))
  {
    HandOps(c, i, s.threads[i].point);
    match op
    case Put => PutUnderway(c, s, i, s');
    case Get => GetUnderway(c, s, i, s');
    case Deliver => DeliverUnderway(c, s, i, s');
    case _ =>
  }

  lemma StepNoNull(c: Config, s: State, i: nat, g: Point, w: nat, s': State)
    requires Safe(c, s) && Safe(c, s') && Flows(c, s) && i < |s.threads| && Step(c, s, i, g, w, s')
    ensures NoNull(Genuine(c, s')) && NoNull(Underway(s'.data, Consumer(c, s')))
  {
    var instr := Instruction(c, i, s.threads[i].point);
    if s.threads[i].status != Running || Quiet(instr) {
      QuietFlows(c, s, i, g, w, s', 0);
    } else {
      StepMoved(c, s, i, g, w, s', instr.op);
      MovedNoNull(c, s, i, s', instr.op);
      var a, b := Genuine(c, s'), Underway(s'.data, Consumer(c, s'));
      assert forall e :: e in a ==> e in a + b;
      assert forall e :: e in b ==> e in a + b;
    }
  }

  lemma StepDrops(c: Config, s: State, i: nat, g: Point, w: nat, s': State, x: nat)
    requires Safe(c, s) && Safe(c, s') && Flows(c, s) && i < |s.threads| && Step(c, s, i, g, w, s') && x <= c.topics
    ensures DropsOk(c, s', x)
  {
    StepMoves(c, s, i, g, w, s');
    StepEdge(c, s, i, g, w, s');
    StepFlag(c, s, i, g, w, s');
    assert Placed(c, s, i) && Placed(c, s, x) && DropsOk(c, s, x);
    if i == x < c.topics && s.threads[i].status != Asleep {
      EdgeGaveUp(c, i, s.threads[i].point, s'.threads[i].point);
    }
    StepDropped(c, s, i, g, w, s', x);
  }

  /** Only the thread itself drops, when the flag is set. */
  lemma StepDropped(c: Config, s: State, i: nat, g: Point, w: nat, s': State, x: nat)
    requires Safe(c, s) && i < |s.threads| && Step(c, s, i, g, w, s') && x <= c.topics
    ensures s'.data.dropped[x] == s.data.dropped[x]
            || (i == x < c.topics && s.threads[i].point == Ring(RingDrop) && s.data.flag
                && |s'.data.dropped[x]| <= |s.data.dropped[x]| + 1)
  {
    assert Placed(c, s, i) && Knows(c, s.data, i, s.threads[i]) && HandOk(c, s.data.flag, i, s.threads[i]);
    HandOps(c, i, s.threads[i].point);
  }

  lemma StepFlows(c: Config, s: State, i: nat, g: Point, w: nat, s': State)
    requires Safe(c, s) && Flows(c, s) && i < |s.threads| && Step(c, s, i, g, w, s')
    ensures Safe(c, s') && Flows(c, s')
  {
    StepSafe(c, s, i, g, w, s');
    StepNoNull(c, s, i, g, w, s');
    StepSends(c, s, i, g, w, s');
    forall x | 0 <= x <= c.topics ensures StreamFlows(c, s', x) && DropsOk(c, s', x) {
      StepStream(c, s, i, g, w, s', x);
      StepDrops(c, s, i, g, w, s', x);
    }
  }

  lemma InitFlows(c: Config, s: State)
    requires Sane(c) && Init(c, s)
    ensures Safe(c, s) && Flows(c, s)
  {
    InitSafe(c, s);
    forall i | 0 <= i < |s.threads| ensures s.threads[i].hand == None {
      assert InitialThread(c, i, s.threads[i]);
    }
    assert R.Contents(s.data.ring) == [];
  }
}
