/** What a thread knows about the shared data at each of its points, kept true by mutual
    exclusion, and the shape of the outgoing buffer over every run. */
module Knowledge {
  import opened Options
  import opened Program
  import opened Discipline
  import opened Machine
  import opened Locking
  import R = Ring

  /** The main thread has set the flag. */
  predicate PastFlag(p: Point) {
    p.Halting? && p.halt != HaltEnter && p.halt != HaltSet
  }

  /** The flag is set exactly from that point of the main thread on. */
  ghost predicate FlagOk(c: Config, s: State)
    requires Shape(c, s)
  {
    s.data.flag <==> PastFlag(s.threads[MainThread(c)].point)
  }

  /** The points of the consumer after a `get` that found the flag set. */
  predicate AfterLastGet(p: Point) {
    match p
    case Fetch(at) => at == TakenEnter || at == TakenRead || at == FinalLeave
    case Sending(final, _) => final
    case Quit(at) => at != Unstarted
    case _ => false
  }

  /** The buffer is coherent, with one exception: the consumer's last `get`, under the flag, may
      have read an empty buffer, and then the count is -1 for good. */
  ghost predicate BufferOk(c: Config, s: State)
    requires Shape(c, s)
  {
    if s.data.stale then
      s.data.flag && s.data.ring.count == -1 && AfterLastGet(s.threads[ConsumerThread(c)].point)
    else R.Coherent(s.data.ring)
  }

  ghost predicate RingFacts(c: Config, d: Data, p: RingPoint, running: bool) {
    match p
    case RingFlagEnter => d.ring.count == c.capacity
    case RingFlagRead => d.ring.count == c.capacity
    case RingWait => running ==> d.ring.count == c.capacity
    case RingCheckEnter => d.ring.count != c.capacity || d.flag
    case RingCheckRead => d.ring.count != c.capacity || d.flag
    case RingPut => !d.stale && d.ring.count != c.capacity
    case RingDrop => d.flag
    case _ => true
  }

  ghost predicate QueueFacts(q: seq<Message>, flag: bool, p: QueuePoint, running: bool) {
    match p
    case QueueFlagEnter => q == []
    case QueueFlagRead => q == []
    case QueueWait => running ==> q == []
    case QueueCheckEnter => q != [] || flag
    case QueueCheckRead => q != [] || flag
    case QueueNull => flag
    case QueueTake => q != []
    case _ => true
  }

  ghost predicate FetchFacts(d: Data, p: FetchPoint, running: bool) {
    match p
    case FillFlagEnter => d.ring.count == 0
    case FillFlagRead => d.ring.count == 0
    case FillWait => running ==> d.ring.count == 0
    case FillTake => d.ring.count != 0 || d.flag
    case _ => true
  }

  ghost predicate Knows(c: Config, d: Data, i: nat, th: Thread)
    requires Sized(c, d)
  {
    match th.point
    case Ring(at) => RingFacts(c, d, at, th.status == Running)
    case Queue(at) => i < c.topics && QueueFacts(d.queues[i], d.flag, at, th.status == Running)
    case Fetch(at) => FetchFacts(d, at, th.status == Running)
    case _ => true
  }

  ghost predicate AllKnow(c: Config, s: State)
    requires Shape(c, s)
  {
    forall i :: 0 <= i < |s.threads| ==> Knows(c, s.data, i, s.threads[i])
  }

  /** A producer or the main thread carries an element between taking it and putting it, the
      consumer between getting it and having sent it. */
  predicate Carries(p: Point) {
    match p
    case Ring(at) => at != RingWake && at != RingLeave
    case Queue(at) => at == QueueLeave
    case Fetch(at) => at == TakenEnter || at == TakenRead || at == TakenWake || at == FillLeave
    case Sending(_, _) => true
    case _ => false
  }

  /** The stream of an element. */
  function Stream(c: Config, e: Element): nat {
    match e.target
    case Subscribers(t) => t
    case Connection(_) => c.topics
  }

  /** What thread `i` carries is of its own stream; only a producer carries a null message, and
      only when the flag is set. */
  ghost predicate HandOk(c: Config, flag: bool, i: nat, th: Thread) {
    && (th.hand.Some? <==> Carries(th.point))
    && (th.hand.Some? && i <= c.topics ==>
        && Stream(c, th.hand.value) == i
        && (th.hand.value.message == None ==> flag && i < c.topics)
        && (th.point == Ring(RingPut) ==> th.hand.value.message.Some?))
  }

  ghost predicate HandsOk(c: Config, s: State)
    requires Shape(c, s)
  {
    forall i :: 0 <= i < |s.threads| ==> HandOk(c, s.data.flag, i, s.threads[i])
  }

  ghost predicate Safe(c: Config, s: State) {
    && Sane(c) && AllPlaced(c, s) && Exclusive(s)
    && FlagOk(c, s) && BufferOk(c, s) && AllKnow(c, s) && HandsOk(c, s)
  }

  /** The part of it that says where the threads are. */
  ghost predicate Orderly(c: Config, s: State) {
    AllPlaced(c, s) && Exclusive(s) && FlagOk(c, s)
  }

  lemma EdgeFlag(c: Config, i: nat, p: Point, q: Point)
    requires Fits(c, i, p) && Edge(c, i, p, q)
    ensures PastFlag(q) <==> PastFlag(p) || p == Halting(HaltSet)
  {
  }

  /** Only the main thread sets the flag. */
  lemma StepSetsFlag(c: Config, s: State, i: nat, g: Point, w: nat, s': State)
    requires Shape(c, s) && i < |s.threads| && Fits(c, i, s.threads[i].point) && Step(c, s, i, g, w, s')
    ensures s'.data.flag <==> s.data.flag || (s.threads[i].point == Halting(HaltSet) && s.threads[i].status == Running)
  {
  }

  lemma StepFlag(c: Config, s: State, i: nat, g: Point, w: nat, s': State)
    requires AllPlaced(c, s) && FlagOk(c, s) && i < |s.threads| && Step(c, s, i, g, w, s')
    ensures Shape(c, s') && FlagOk(c, s')
    ensures s.data.flag ==> s'.data.flag
  {
    StepPlaces(c, s, i, g, w, s');
    StepMoves(c, s, i, g, w, s');
    StepEdge(c, s, i, g, w, s');
    assert Placed(c, s, i);
    StepSetsFlag(c, s, i, g, w, s');
    if s.threads[i].status != Asleep {
      EdgeFlag(c, i, s.threads[i].point, s'.threads[i].point);
    }
  }

  /** The fields of the buffer change only under its lock, a queue only under its own. */
  lemma StepProtects(c: Config, s: State, i: nat, g: Point, w: nat, s': State)
    requires AllPlaced(c, s) && i < |s.threads| && Step(c, s, i, g, w, s')
    ensures Shape(c, s')
    ensures RingLock !in s.threads[i].held ==> s'.data.ring == s.data.ring && s'.data.stale == s.data.stale
    ensures forall t :: 0 <= t < c.topics ==> s'.data.queues[t] == s.data.queues[t] || QueueLock(t) in s.threads[i].held
  {
    assert Placed(c, s, i);
    AllDisciplined(c, i, s.threads[i].point);
    StepProtectsQueues(c, s, i, g, w, s');
  }

  lemma StepProtectsQueues(c: Config, s: State, i: nat, g: Point, w: nat, s': State)
    requires Shape(c, s) && i < |s.threads| && Step(c, s, i, g, w, s')
    requires s.threads[i].status == Running ==> Protected(c, i, s.threads[i].held, Instruction(c, i, s.threads[i].point))
    ensures Shape(c, s')
    ensures forall t :: 0 <= t < c.topics ==> s'.data.queues[t] == s.data.queues[t] || QueueLock(t) in s.threads[i].held
  {
  }

  /** What another thread knows stays true. */
  lemma OthersKnow(c: Config, s: State, i: nat, g: Point, w: nat, s': State, j: nat)
    requires Safe(c, s) && i < |s.threads| && Step(c, s, i, g, w, s')
    requires j < |s.threads| && j != i
    ensures Shape(c, s') && Knows(c, s'.data, j, s'.threads[j])
  {
    StepMoves(c, s, i, g, w, s');
    StepFlag(c, s, i, g, w, s');
    StepProtects(c, s, i, g, w, s');
    assert Placed(c, s, j) && Knows(c, s.data, j, s.threads[j]);
  }

  lemma RingKnows(c: Config, s: State, i: nat, g: Point, w: nat, s': State)
    requires AllPlaced(c, s) && i < |s.threads| && Step(c, s, i, g, w, s') && s.threads[i].point.Ring?
    requires BufferOk(c, s) && Knows(c, s.data, i, s.threads[i])
    ensures Shape(c, s') && Knows(c, s'.data, i, s'.threads[i])
  {
    assert Placed(c, s, i);
  }

  lemma QueueKnows(c: Config, s: State, i: nat, g: Point, w: nat, s': State)
    requires AllPlaced(c, s) && i < |s.threads| && Step(c, s, i, g, w, s') && s.threads[i].point.Queue?
    requires Knows(c, s.data, i, s.threads[i])
    ensures Shape(c, s') && Knows(c, s'.data, i, s'.threads[i])
  {
    assert Placed(c, s, i) && Knows(c, s.data, i, s.threads[i]);
  }

  lemma FetchKnows(c: Config, s: State, i: nat, g: Point, w: nat, s': State)
    requires AllPlaced(c, s) && i < |s.threads| && Step(c, s, i, g, w, s') && s.threads[i].point.Fetch?
    requires Knows(c, s.data, i, s.threads[i])
    ensures Shape(c, s') && Knows(c, s'.data, i, s'.threads[i])
  {
    assert Placed(c, s, i) && Knows(c, s.data, i, s.threads[i]);
  }

  /** Nothing is claimed at `p`. */
  predicate Blank(p: Point) {
    match p
    case Ring(at) => at == RingEnter
    case Queue(_) => false
    case Fetch(at) => at == FetchEnter || at == FinalLeave
    case _ => true
  }

  lemma EdgeBlank(c: Config, i: nat, p: Point, q: Point)
    requires Fits(c, i, p) && Edge(c, i, p, q) && !p.Ring? && !p.Queue? && !p.Fetch?
    ensures Blank(q)
  {
  }

  /** What the thread that moved knows, it has just tested or already knew. */
  lemma SelfKnows(c: Config, s: State, i: nat, g: Point, w: nat, s': State)
    requires Safe(c, s) && i < |s.threads| && Step(c, s, i, g, w, s')
    ensures Shape(c, s') && Knows(c, s'.data, i, s'.threads[i])
  {
    assert Knows(c, s.data, i, s.threads[i]);
    match s.threads[i].point
    case Ring(_) => RingKnows(c, s, i, g, w, s');
    case Queue(_) => QueueKnows(c, s, i, g, w, s');
    case Fetch(_) => FetchKnows(c, s, i, g, w, s');
    case _ =>
      StepEdge(c, s, i, g, w, s');
      StepPlaces(c, s, i, g, w, s');
      assert Placed(c, s, i);
      if s.threads[i].status != Asleep {
        EdgeBlank(c, i, s.threads[i].point, s'.threads[i].point);
      }
  }

  lemma StepKnows(c: Config, s: State, i: nat, g: Point, w: nat, s': State)
    requires Safe(c, s) && i < |s.threads| && Step(c, s, i, g, w, s')
    ensures Shape(c, s') && AllKnow(c, s')
  {
    SelfKnows(c, s, i, g, w, s');
    forall j | 0 <= j < |s'.threads| ensures Knows(c, s'.data, j, s'.threads[j]) {
      StepPlaces(c, s, i, g, w, s');
      if j != i {
        OthersKnow(c, s, i, g, w, s', j);
      }
    }
  }

  /** Only `put` and `get` change the buffer. */
  lemma StepBuffer(c: Config, s: State, i: nat, g: Point, w: nat, s': State)
    requires Shape(c, s) && i < |s.threads| && Fits(c, i, s.threads[i].point) && Step(c, s, i, g, w, s')
    ensures
      var d, d', th := s.data, s'.data, s.threads[i];
      if th.status == Running && th.point == Ring(RingPut) then
        th.hand.Some? && d'.ring == R.AfterPut(d.ring, th.hand.value) && d'.stale == d.stale
      else if th.status == Running && th.point == Fetch(FillTake) then
        d'.ring == R.AfterGet(d.ring) && d'.stale == (d.stale || d.ring.count == 0)
      else d'.ring == d.ring && d'.stale == d.stale
  {
  }

  lemma EdgeAfterLastGet(c: Config, i: nat, p: Point, q: Point)
    requires Fits(c, i, p) && Edge(c, i, p, q)
    ensures AfterLastGet(p) ==> AfterLastGet(q) || p == Fetch(TakenRead)
    ensures p == Fetch(FillTake) ==> AfterLastGet(q)
  {
  }

  lemma StepKeepsBuffer(c: Config, s: State, i: nat, g: Point, w: nat, s': State)
    requires Safe(c, s) && i < |s.threads| && Step(c, s, i, g, w, s')
    ensures Shape(c, s') && BufferOk(c, s')
  {
    StepPlaces(c, s, i, g, w, s');
    StepFlag(c, s, i, g, w, s');
    StepEdge(c, s, i, g, w, s');
    StepMoves(c, s, i, g, w, s');
    assert Placed(c, s, i) && Knows(c, s.data, i, s.threads[i]);
    StepBuffer(c, s, i, g, w, s');
    if s.threads[i].status != Asleep {
      EdgeAfterLastGet(c, i, s.threads[i].point, s'.threads[i].point);
    }
    if !s.data.stale && s.threads[i].status == Running {
      if s.threads[i].point == Ring(RingPut) {
        R.PutAppends(s.data.ring, s.threads[i].hand.value);
      } else if s.threads[i].point == Fetch(FillTake) && s.data.ring.count != 0 {
        R.GetRemoves(s.data.ring);
      }
    }
  }

  lemma EdgeCarries(c: Config, i: nat, p: Point, q: Point)
    requires Fits(c, i, p) && Edge(c, i, p, q)
    ensures
      match Instruction(c, i, p)
      case Do(Put, _) => Carries(p) && !Carries(q)
      case Do(Get, _) => Carries(q)
      case Do(Drop, _) => Carries(p) && !Carries(q)
      case Do(Dequeue(_), _) => Carries(q)
      case Do(HoldNull(_), _) => Carries(q)
      case Do(Issue(_, _), _) => Carries(q)
      case Do(Deliver, _) => Carries(p) && !Carries(q)
      case _ => Carries(p) <==> Carries(q)
  {
  }

  /** The instructions that fill or empty a hand, and whose they are. */
  lemma HandOps(c: Config, i: nat, p: Point)
    requires Fits(c, i, p)
    ensures
      match Instruction(c, i, p)
      case Do(Get, _) => i == ConsumerThread(c)
      case Do(Deliver, _) => i == ConsumerThread(c)
      case Do(Dequeue(t), _) => i == t < c.topics && p == Queue(QueueTake)
      case Do(HoldNull(t), _) => i == t < c.topics && p == Queue(QueueNull)
      case Do(Issue(_, _), _) => i == MainThread(c)
      case Do(Put, _) => p == Ring(RingPut)
      case Do(Drop, _) => p == Ring(RingDrop)
      case _ => true
  {
  }

  /** `put` is reached only by a test of the flag. */
  lemma EdgePut(c: Config, i: nat, p: Point)
    requires Fits(c, i, p) && Edge(c, i, p, Ring(RingPut))
    ensures p == Ring(RingCheckRead)
  {
  }

  lemma StepHands(c: Config, s: State, i: nat, g: Point, w: nat, s': State)
    requires Safe(c, s) && i < |s.threads| && Step(c, s, i, g, w, s')
    ensures Shape(c, s') && HandsOk(c, s')
  {
    StepPlaces(c, s, i, g, w, s');
    StepFlag(c, s, i, g, w, s');
    StepMoves(c, s, i, g, w, s');
    forall j | 0 <= j < |s'.threads| ensures HandOk(c, s'.data.flag, j, s'.threads[j]) {
      assert HandOk(c, s.data.flag, j, s.threads[j]);
      if j == i && s.threads[i].status != Asleep {
        SelfHand(c, s, i, g, w, s');
      }
    }
  }

  lemma SelfHand(c: Config, s: State, i: nat, g: Point, w: nat, s': State)
    requires Safe(c, s) && i < |s.threads| && Step(c, s, i, g, w, s') && s.threads[i].status != Asleep
    ensures Shape(c, s') && HandOk(c, s'.data.flag, i, s'.threads[i])
  {
    StepEdge(c, s, i, g, w, s');
    StepFlag(c, s, i, g, w, s');
    var p := s.threads[i].point;
    assert Placed(c, s, i) && Knows(c, s.data, i, s.threads[i]) && HandOk(c, s.data.flag, i, s.threads[i]);
    EdgeCarries(c, i, p, s'.threads[i].point);
    HandOps(c, i, p);
    if s'.threads[i].point == Ring(RingPut) {
      EdgePut(c, i, p);
    }
  }

  /** Everything above is kept by every step. */
  lemma StepSafe(c: Config, s: State, i: nat, g: Point, w: nat, s': State)
    requires Safe(c, s) && i < |s.threads| && Step(c, s, i, g, w, s')
    ensures Safe(c, s')
  {
    StepPlaces(c, s, i, g, w, s');
    StepExcludes(c, s, i, g, w, s');
    StepFlag(c, s, i, g, w, s');
    StepKeepsBuffer(c, s, i, g, w, s');
    StepKnows(c, s, i, g, w, s');
    StepHands(c, s, i, g, w, s');
  }

  lemma InitSafe(c: Config, s: State)
    requires Sane(c) && Init(c, s)
    ensures Safe(c, s)
  {
    forall i | 0 <= i < |s.threads|
      ensures Placed(c, s, i) && Knows(c, s.data, i, s.threads[i]) && HandOk(c, s.data.flag, i, s.threads[i])
    {
      assert InitialThread(c, i, s.threads[i]);
    }
    assert R.Coherent(s.data.ring);
  }
}
