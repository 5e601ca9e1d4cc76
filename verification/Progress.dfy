/** Before shutdown everything published is delivered: the threads' own steps use up a measure, and end
    where all of it has been sent. */
module Progress {
  import opened Options
  import opened Program
  import opened Discipline
  import opened Machine
  import opened Locking
  import opened Knowledge
  import opened Flow
  import opened Wakeups
  import opened Shutdown
  import opened Deadlock
  import opened Drain
  import opened Closing
  import opened Pipeline

  /** Before shutdown, with all threads started and main not on its way to one. */
  ghost predicate Calm(c: Config, s: State) {
    && Reachable(c, s) && Shape(c, s) && !s.data.flag && AllStarted(s)
    && !s.threads[MainThread(c)].point.Halting?
  }

  /** So it is at the start, when all threads have been created. */
  lemma InitIsCalm(c: Config, s: State)
    requires Sane(c) && Init(c, s) && AllStarted(s)
    ensures Calm(c, s)
  {
    assert IsRun(c, [s]) && [s][|[s]| - 1] == s;
  }

  /** A step of a thread by itself: not a spurious wakeup, and not an event that comes to main from
      outside. */
  ghost predicate Own(c: Config, s: State, i: nat) {
    i < |s.threads| && s.threads[i].status != Asleep && !(i == MainThread(c) && s.threads[i].point == Serve(Idle))
  }

  /** How much of its way a message has before it, by the thread that has it at `p`. */
  function Load(c: Config, i: nat, p: Point): nat {
    if i == ConsumerThread(c) then if Carries(p) then 1 else 0
    else
      match p
      case Serve(EnqueueEnter(_, _)) => 5
      case Serve(EnqueueLink(_, _)) => 5
      case Serve(Respond(_, _)) => 4
      case _ => if Carries(p) then 3 else 0
  }

  ghost function Loads(c: Config): (nat, Thread) -> nat {
    (i: nat, th: Thread) => Load(c, i, th.point)
  }

  function Queues(qs: seq<seq<Message>>): nat {
    if qs == [] then 0 else Queues(qs[..|qs| - 1]) + |qs[|qs| - 1]|
  }

  /** What is left to be carried. */
  ghost function Burden(c: Config, s: State): int
    requires Shape(c, s)
  {
    Tally(Loads(c), s.threads) + 4 * Queues(s.data.queues) + 2 * s.data.ring.count
  }

  function RingPace(p: RingPoint, status: Status): nat {
    match p
    case RingWake => 20
    case RingDrop => 11
    case RingLeave => 10
    case RingEnter => 7
    case RingWait => if status == Woken then 7 else if status == Running then 1 else 0
    case RingTest => 6
    case RingCheckEnter => 5
    case RingCheckRead => 4
    case RingFlagEnter => 3
    case RingPut => 3
    case RingFlagRead => 2
  }

  function QueuePace(p: QueuePoint, status: Status): nat {
    match p
    case LoopEnter => 9
    case LoopRead => 8
    case QueueLeave => 8
    case QueueEnter => 7
    case QueueWait => if status == Woken then 7 else if status == Running then 1 else 0
    case QueueTest => 6
    case QueueCheckEnter => 5
    case QueueCheckRead => 4
    case QueueFlagEnter => 3
    case QueueTake => 3
    case QueueFlagRead => 2
    case QueueNull => 9
  }

  function FetchPace(p: FetchPoint, status: Status): nat {
    match p
    case TakenEnter => 32
    case TakenRead => 31
    case TakenWake => 30
    case FillLeave => 22
    case FetchEnter => 9
    case FetchRead => 8
    case FillEnter => 7
    case FillWait => if status == Woken then 7 else if status == Running then 1 else 0
    case FillTest => 6
    case FillFlagEnter => 3
    case FillTake => 3
    case FillFlagRead => 2
    case FinalLeave => 0
  }

  function ServePace(p: ServePoint): nat {
    match p
    case Idle => 0
    case EnqueueEnter(_, _) => 17
    case EnqueueLink(_, _) => 16
    case EnqueueWake(_) => 15
    case EnqueuePrint(_) => 5
    case EnqueueShow(_) => 4
    case EnqueueShown(_) => 3
    case EnqueueUnprint(_) => 2
    case EnqueueLeave(_) => 1
    case Respond(_, _) => 8
    case ListEnter(_, _) => 7
    case ListLeave(_, _) => 6
    case PrintEnter(_) => 5
    case PrintList(_) => 4
    case PrintListed(_) => 3
    case NoteEnter => 2
    case PrintLeave => 1
  }

  /** How far a thread is from its next move of a message, or from sleeping.  A thread about to wake
      another has that one's way to make up for. */
  function Pace(th: Thread): nat {
    match th.point
    case Ring(at) => RingPace(at, th.status)
    case Queue(at) => QueuePace(at, th.status)
    case Fetch(at) => FetchPace(at, th.status)
    case Serve(at) => ServePace(at)
    case Sending(_, at) => SendStage(at)
    case _ => 0
  }

  ghost function Paces(): (nat, Thread) -> nat {
    (i, th) => Pace(th)
  }

  /** An instruction that moves a message on. */
  predicate Moves(instr: Instr) {
    instr.Do? &&
    match instr.op
    case Put => true
    case Get => true
    case Deliver => true
    case Dequeue(_) => true
    case Enqueue(_, _) => true
    case Issue(_, _) => true
    case _ => false
  }

  /** The branch taken when the flag is clear, if there is one. */
  predicate FlagClear(instr: Instr, q: Point) {
    instr.If? && instr.test == Flag ==> q == instr.no
  }

  predicate WakesAny(instr: Instr) {
    instr.Do? && (instr.op.Wake? || instr.op.WakeAll?)
  }

  /** From `p` to `q` the thread gets on, by enough to make up for a thread it wakes. */
  predicate GetsOn(instr: Instr, p: Point, q: Point) {
    var next := if Sleeps(instr) then Asleep else Running;
    var before, after := Pace(Thread(p, Running, [], None)), Pace(Thread(q, next, [], None));
    if WakesAny(instr) then after + 8 <= before
    else after < before || (after == before && Remaining(q) < Remaining(p))
  }

  lemma RingGetsOn(c: Config, i: nat, p: RingPoint, q: Point)
    requires i <= c.topics && Edge(c, i, Ring(p), q)
    requires var instr := Instruction(c, i, Ring(p)); !Moves(instr) && FlagClear(instr, q) && (Sleeps(instr) ==> q == Ring(p))
    ensures GetsOn(Instruction(c, i, Ring(p)), Ring(p), q)
  {
  }

  lemma QueueGetsOn(c: Config, i: nat, p: QueuePoint, q: Point)
    requires i < c.topics && Edge(c, i, Queue(p), q)
    requires var instr := Instruction(c, i, Queue(p)); !Moves(instr) && FlagClear(instr, q) && (Sleeps(instr) ==> q == Queue(p))
    requires p != QueueNull
    ensures GetsOn(Instruction(c, i, Queue(p)), Queue(p), q)
  {
  }

  lemma FetchGetsOn(c: Config, p: FetchPoint, q: Point)
    requires Edge(c, ConsumerThread(c), Fetch(p), q) && p != FinalLeave
    requires
      var instr := Instruction(c, ConsumerThread(c), Fetch(p));
      !Moves(instr) && FlagClear(instr, q) && (Sleeps(instr) ==> q == Fetch(p))
    ensures GetsOn(Instruction(c, ConsumerThread(c), Fetch(p)), Fetch(p), q)
  {
  }

  lemma ServeGetsOn(c: Config, p: ServePoint, q: Point)
    requires Edge(c, MainThread(c), Serve(p), q) && p != Idle && !Moves(Instruction(c, MainThread(c), Serve(p)))
    ensures GetsOn(Instruction(c, MainThread(c), Serve(p)), Serve(p), q)
  {
  }

  lemma SendGetsOn(c: Config, p: SendPoint, q: Point)
    requires Edge(c, ConsumerThread(c), Sending(false, p), q) && !Moves(Instruction(c, ConsumerThread(c), Sending(false, p)))
    ensures GetsOn(Instruction(c, ConsumerThread(c), Sending(false, p)), Sending(false, p), q)
  {
    SendCloser(c, false, p, q);
    StayInSend(c, p, q);
  }

  lemma StayInSend(c: Config, p: SendPoint, q: Point)
    requires Edge(c, ConsumerThread(c), Sending(false, p), q) && !Moves(Instruction(c, ConsumerThread(c), Sending(false, p)))
    ensures q.Sending? && !WakesAny(Instruction(c, ConsumerThread(c), Sending(false, p)))
    ensures !Sleeps(Instruction(c, ConsumerThread(c), Sending(false, p)))
  {
  }

  /** The points at which a thread does not move a message and is not leaving its loop. */
  predicate Ordinary(c: Config, i: nat, p: Point) {
    && Fits(c, i, p) && !p.Halting? && !p.Quit? && !Leaving(p) && p != Serve(Idle)
    && p != Queue(QueueNull) && p != Ring(RingDrop)
  }

  lemma EdgeGetsOn(c: Config, i: nat, p: Point, q: Point)
    requires Ordinary(c, i, p) && Edge(c, i, p, q)
    requires var instr := Instruction(c, i, p); !Moves(instr) && FlagClear(instr, q) && (Sleeps(instr) ==> q == p)
    ensures GetsOn(Instruction(c, i, p), p, q)
  {
    match p
    case Ring(at) => RingGetsOn(c, i, at, q);
    case Queue(at) => QueueGetsOn(c, i, at, q);
    case Fetch(at) => FetchGetsOn(c, at, q);
    case Serve(at) => ServeGetsOn(c, at, q);
    case Sending(_, at) => SendGetsOn(c, at, q);
    case _ =>
  }

  lemma EdgeLoad(c: Config, i: nat, p: Point, q: Point)
    requires Ordinary(c, i, p) && Edge(c, i, p, q) && !Moves(Instruction(c, i, p))
    ensures Load(c, i, q) == Load(c, i, p)
  {
    EdgeCarries(c, i, p, q);
  }

  /** What moving a message takes off the mover's load. */
  lemma MoveLoad(c: Config, i: nat, p: Point)
    requires Fits(c, i, p) && Moves(Instruction(c, i, p))
    ensures
      var q := Instruction(c, i, p).next;
      match Instruction(c, i, p).op
      case Put => p == Ring(RingPut) && i <= c.topics && Load(c, i, p) == 3 && Load(c, i, q) == 0
      case Get => p == Fetch(FillTake) && i == ConsumerThread(c) && Load(c, i, p) == 0 && Load(c, i, q) == 1
      case Deliver => i == ConsumerThread(c) && Load(c, i, p) == 1 && Load(c, i, q) == 0
      case Dequeue(t) => p == Queue(QueueTake) && i == t < c.topics && Load(c, i, p) == 0 && Load(c, i, q) == 3
      case Enqueue(t, _) => t < c.topics && Load(c, i, p) == 5 && Load(c, i, q) == 0
      case Issue(_, _) => Load(c, i, p) == 4 && Load(c, i, q) == 3
      case _ => false
  {
  }

  lemma {:induction false} QueuesUpdate(qs: seq<seq<Message>>, t: nat, q: seq<Message>)
    requires t < |qs|
    ensures Queues(qs[t := q]) + |qs[t]| == Queues(qs) + |q|
  {
    var k := |qs| - 1;
    if t == k {
      assert qs[t := q][..k] == qs[..k];
    } else {
      assert qs[t := q][..k] == qs[..k][t := q];
      QueuesUpdate(qs[..k], t, q);
    }
  }

  lemma StepLoads(c: Config, s: State, i: nat, g: Point, w: nat, s': State)
    requires Shape(c, s) && i < |s.threads| && Step(c, s, i, g, w, s')
    ensures |s'.threads| == |s.threads|
    ensures Tally(Loads(c), s'.threads) + Load(c, i, s.threads[i].point) == Tally(Loads(c), s.threads) + Load(c, i, s'.threads[i].point)
  {
    StepMoves(c, s, i, g, w, s');
    TallyUpdate(Loads(c), s.threads, i, s'.threads[i]);
    TallySame(Loads(c), s.threads[i := s'.threads[i]], s'.threads);
  }

  /** Moving a message lowers the burden. */
  lemma MoveBurden(c: Config, s: State, i: nat, g: Point, w: nat, s': State)
    requires AllPlaced(c, s) && Shape(c, s') && i < |s.threads| && Step(c, s, i, g, w, s') && s.threads[i].status == Running
    requires Moves(Instruction(c, i, s.threads[i].point)) && Knows(c, s.data, i, s.threads[i])
    ensures Burden(c, s') < Burden(c, s)
  {
    assert Placed(c, s, i);
    var p := s.threads[i].point;
    MoveLoad(c, i, p);
    StepLoads(c, s, i, g, w, s');
    match Instruction(c, i, p).op
    case Dequeue(t) => QueuesUpdate(s.data.queues, t, s.data.queues[t][1..]);
    case Enqueue(t, m) => QueuesUpdate(s.data.queues, t, s.data.queues[t] + [m]);
    case _ =>
  }

  /** Every other step leaves what is carried alone. */
  lemma OtherBurden(c: Config, s: State, i: nat, g: Point, w: nat, s': State)
    requires Shape(c, s) && Shape(c, s') && i < |s.threads| && Step(c, s, i, g, w, s') && s.threads[i].status == Running
    requires Ordinary(c, i, s.threads[i].point) && !Moves(Instruction(c, i, s.threads[i].point))
    ensures Burden(c, s') == Burden(c, s)
  {
    StepLoads(c, s, i, g, w, s');
    StepEdge(c, s, i, g, w, s');
    EdgeLoad(c, i, s.threads[i].point, s'.threads[i].point);
  }

  /** A woken thread gets the way to its next test added. */
  lemma WokenPace(c: Config, s: State, j: nat)
    requires AllPlaced(c, s) && j < |s.threads| && s.threads[j].status == Asleep
    ensures Pace(s.threads[j].(status := Woken)) <= Pace(s.threads[j]) + 7
  {
    assert Placed(c, s, j);
  }

  lemma StepPaces(c: Config, s: State, i: nat, g: Point, w: nat, s': State)
    requires AllPlaced(c, s) && i < |s.threads| && Step(c, s, i, g, w, s') && s.threads[i].status != Asleep
    requires s.threads[i].status == Running ==>
      var instr := Instruction(c, i, s.threads[i].point); !(instr.Do? && instr.op.WakeAll?)
    ensures |s'.threads| == |s.threads|
    ensures
      var wakes := s.threads[i].status == Running && WakesAny(Instruction(c, i, s.threads[i].point));
      Tally(Paces(), s'.threads) + Pace(s.threads[i])
        <= Tally(Paces(), s.threads) + Pace(s'.threads[i]) + if wakes then 7 else 0
  {
    StepThreads(c, s, i, g, w, s');
    if s'.threads == s.threads[i := s'.threads[i]] {
      TallyUpdate(Paces(), s.threads, i, s'.threads[i]);
    } else {
      var woken := s.threads[w].(status := Woken);
      WokenPace(c, s, w);
      TallyUpdate(Paces(), s.threads, w, woken);
      TallyUpdate(Paces(), s.threads[w := woken], i, s'.threads[i]);
    }
  }

  ghost predicate Less(c: Config, s': State, s: State)
    requires Shape(c, s) && Shape(c, s')
  {
    var k := ConsumerThread(c);
    var a', a := Tally(Paces(), s'.threads), Tally(Paces(), s.threads);
    || Burden(c, s') < Burden(c, s)
    || (Burden(c, s') == Burden(c, s)
        && (a' < a || (a' == a && Remaining(s'.threads[k].point) < Remaining(s.threads[k].point))))
  }

  /** Before shutdown every thread that can step by itself is at an ordinary point, or main is waiting. */
  lemma CalmPoint(c: Config, s: State, i: nat)
    requires Safe(c, s) && NoneLeaves(c, s) && !s.data.flag && AllStarted(s) && i < |s.threads|
    requires !s.threads[MainThread(c)].point.Halting? && Own(c, s, i)
    ensures Ordinary(c, i, s.threads[i].point)
    ensures var instr := Instruction(c, i, s.threads[i].point); !(instr.Do? && instr.op.WakeAll?)
  {
    assert Placed(c, s, i) && Knows(c, s.data, i, s.threads[i]);
    OrdinaryIf(c, i, s.threads[i].point);
  }

  lemma OrdinaryIf(c: Config, i: nat, p: Point)
    requires Fits(c, i, p) && !p.Halting? && !Leaving(p) && p != Quit(Unstarted)
    ensures !p.Quit?
    ensures var instr := Instruction(c, i, p); !(instr.Do? && instr.op.WakeAll?)
  {
  }

  /** A running thread that moves no message gets on. */
  lemma RunningGetsOn(c: Config, s: State, i: nat, g: Point, w: nat, s': State)
    requires Shape(c, s) && i < |s.threads| && Step(c, s, i, g, w, s') && s.threads[i].status == Running && !s.data.flag
    requires Ordinary(c, i, s.threads[i].point) && !Moves(Instruction(c, i, s.threads[i].point)) && |s'.threads| == |s.threads|
    ensures
      var instr, th, th' := Instruction(c, i, s.threads[i].point), s.threads[i], s'.threads[i];
      if WakesAny(instr) then Pace(th') + 8 <= Pace(th)
      else Pace(th') < Pace(th) || (Pace(th') == Pace(th) && Remaining(th'.point) < Remaining(th.point))
  {
    StepEdge(c, s, i, g, w, s');
    EdgeGetsOn(c, i, s.threads[i].point, s'.threads[i].point);
  }

  /** A woken thread goes on to its test. */
  lemma ResumedGetsOn(c: Config, s: State, i: nat, g: Point, w: nat, s': State)
    requires AllPlaced(c, s) && i < |s.threads| && Step(c, s, i, g, w, s') && s.threads[i].status == Woken
    requires Ordinary(c, i, s.threads[i].point)
    ensures |s'.threads| == |s.threads| && s'.data == s.data
    ensures Pace(s'.threads[i]) < Pace(s.threads[i]) && Load(c, i, s'.threads[i].point) == Load(c, i, s.threads[i].point)
  {
    assert Placed(c, s, i);
  }

  lemma OnlyConsumerRemains(c: Config, i: nat, p: Point)
    requires Fits(c, i, p) && 0 < Remaining(p)
    ensures i == ConsumerThread(c)
  {
  }

  lemma RunningLess(c: Config, s: State, i: nat, g: Point, w: nat, s': State)
    requires AllPlaced(c, s) && Shape(c, s') && i < |s.threads| && Step(c, s, i, g, w, s') && s.threads[i].status == Running
    requires !s.data.flag && Ordinary(c, i, s.threads[i].point) && !Moves(Instruction(c, i, s.threads[i].point))
    requires var instr := Instruction(c, i, s.threads[i].point); !(instr.Do? && instr.op.WakeAll?)
    ensures Less(c, s', s)
  {
    RunningGetsOn(c, s, i, g, w, s');
    OtherBurden(c, s, i, g, w, s');
    StepPaces(c, s, i, g, w, s');
    if 0 < Remaining(s.threads[i].point) {
      OnlyConsumerRemains(c, i, s.threads[i].point);
    }
  }

  lemma ResumedLess(c: Config, s: State, i: nat, g: Point, w: nat, s': State)
    requires AllPlaced(c, s) && Shape(c, s') && i < |s.threads| && Step(c, s, i, g, w, s') && s.threads[i].status == Woken
    requires Ordinary(c, i, s.threads[i].point)
    ensures Less(c, s', s)
  {
    ResumedGetsOn(c, s, i, g, w, s');
    StepLoads(c, s, i, g, w, s');
    StepPaces(c, s, i, g, w, s');
  }

  /** Main goes from serving to a shutdown only from where it waits for events. */
  lemma MainServes(c: Config, p: Point, q: Point)
    requires Fits(c, MainThread(c), p) && Edge(c, MainThread(c), p, q) && !p.Halting? && p != Serve(Idle)
    ensures !q.Halting?
  {
  }

  /** What will have been published on stream `x` when main has done what it is about to do. */
  ghost function Due(c: Config, s: State, x: nat): seq<Element>
    requires Shape(c, s) && x <= c.topics
  {
    s.data.published[x] + Pending(c, s.threads[MainThread(c)].point, x)
  }

  function Pending(c: Config, p: Point, x: nat): seq<Element> {
    match p
    case Serve(EnqueueEnter(t, m)) => if t == x then [Element(Some(m), Subscribers(t))] else []
    case Serve(EnqueueLink(t, m)) => if t == x then [Element(Some(m), Subscribers(t))] else []
    case Serve(Respond(socket, m)) => if x == c.topics then [Element(Some(m), Connection(socket))] else []
    case _ => []
  }

  lemma EdgePending(c: Config, i: nat, p: Point, q: Point, x: nat)
    requires Fits(c, i, p) && Edge(c, i, p, q) && i == MainThread(c) && !p.Halting? && p != Serve(Idle) && x <= c.topics
    ensures
      match Instruction(c, i, p)
      case Do(Enqueue(t, m), _) => Pending(c, q, x) == [] && Pending(c, p, x) == if t == x then [Element(Some(m), Subscribers(t))] else []
      case Do(Issue(socket, m), _) =>
        Pending(c, q, x) == [] && Pending(c, p, x) == if x == c.topics then [Element(Some(m), Connection(socket))] else []
      case _ => Pending(c, q, x) == Pending(c, p, x)
  {
  }

  lemma OnlyMainPublishes(c: Config, i: nat, p: Point)
    requires Fits(c, i, p) && i != MainThread(c) && Instruction(c, i, p).Do?
    ensures !Instruction(c, i, p).op.Enqueue? && !Instruction(c, i, p).op.Issue?
  {
  }

  lemma StepDue(c: Config, s: State, i: nat, g: Point, w: nat, s': State, x: nat)
    requires AllPlaced(c, s) && Shape(c, s') && i < |s.threads| && Step(c, s, i, g, w, s') && x <= c.topics
    requires Own(c, s, i) && !s.threads[MainThread(c)].point.Halting?
    ensures Due(c, s', x) == Due(c, s, x)
  {
    StepMoves(c, s, i, g, w, s');
    StepEdge(c, s, i, g, w, s');
    assert Placed(c, s, i);
    if i == MainThread(c) {
      EdgePending(c, i, s.threads[i].point, s'.threads[i].point, x);
    } else if Instruction(c, i, s.threads[i].point).Do? {
      OnlyMainPublishes(c, i, s.threads[i].point);
    }
  }

  /** Every step of a thread by itself uses up some of the measure, keeps the calm, and keeps what is due
      to be published. */
  lemma OwnStep(c: Config, s: State, i: nat, g: Point, w: nat, s': State)
    requires Sane(c) && Calm(c, s) && Own(c, s, i) && Step(c, s, i, g, w, s')
    ensures Calm(c, s') && Less(c, s', s) && 0 <= Burden(c, s)
    ensures forall x :: 0 <= x <= c.topics ==> Due(c, s', x) == Due(c, s, x)
  {
    ReachableInv(c, s);
    ReachNext(c, s, i, g, w, s');
    ReachableInv(c, s');
    CalmPoint(c, s, i);
    CalmStays(c, s, i, g, w, s');
    assert Knows(c, s.data, i, s.threads[i]);
    if s.threads[i].status == Woken {
      ResumedLess(c, s, i, g, w, s');
    } else if Moves(Instruction(c, i, s.threads[i].point)) {
      MoveBurden(c, s, i, g, w, s');
    } else {
      RunningLess(c, s, i, g, w, s');
    }
    forall x | 0 <= x <= c.topics ensures Due(c, s', x) == Due(c, s, x) {
      StepDue(c, s, i, g, w, s', x);
    }
  }

  lemma CalmStays(c: Config, s: State, i: nat, g: Point, w: nat, s': State)
    requires AllPlaced(c, s) && FlagOk(c, s) && Shape(c, s') && FlagOk(c, s')
    requires i < |s.threads| && Step(c, s, i, g, w, s') && Own(c, s, i) && AllStarted(s)
    requires !s.threads[MainThread(c)].point.Halting?
    ensures !s'.data.flag && AllStarted(s') && !s'.threads[MainThread(c)].point.Halting?
  {
    StepMoves(c, s, i, g, w, s');
    StepEdge(c, s, i, g, w, s');
    assert Placed(c, s, i);
    if i == MainThread(c) && s.threads[i].status != Asleep {
      MainServes(c, s.threads[i].point, s'.threads[i].point);
    }
    if s.threads[i].status != Asleep {
      NeverUnstarted(c, i, s.threads[i].point, s'.threads[i].point);
    }
  }

  lemma NeverUnstarted(c: Config, i: nat, p: Point, q: Point)
    requires Fits(c, i, p) && Edge(c, i, p, q)
    ensures q != Quit(Unstarted)
  {
  }

  /** All that was published on each stream has been sent, in order, and the threads are at rest. */
  ghost predicate AllSent(c: Config, s: State) {
    && Calm(c, s) && AtRest(c, s) && s.threads[MainThread(c)].point == Serve(Idle)
    && forall x :: 0 <= x <= c.topics ==> Of(c, s.data.sent, x) == s.data.published[x]
  }

  lemma RestIsAllSent(c: Config, s: State)
    requires Sane(c) && Calm(c, s) && AtRest(c, s)
    ensures AllSent(c, s)
  {
    forall x | 0 <= x <= c.topics ensures Of(c, s.data.sent, x) == s.data.published[x] {
      RestDelivers(c, s, x);
    }
    RestDelivers(c, s, 0);
  }

  /** Some thread steps by itself. */
  lemma SomeOwnStep(c: Config, s: State) returns (s': State)
    requires Sane(c) && Calm(c, s) && !AtRest(c, s)
    ensures Next(c, s, s') && Calm(c, s') && Less(c, s', s) && 0 <= Burden(c, s)
    ensures forall x :: 0 <= x <= c.topics ==> Due(c, s', x) == Due(c, s, x)
  {
    var i: nat :| i < |s.threads| && CanStep(c, s, i) && !(i == MainThread(c) && s.threads[i].point == Serve(Idle));
    var g, w, t :| 0 <= w && Step(c, s, i, g, w, t);
    s' := t;
    OwnStep(c, s, i, g, w, s');
    assert Next(c, s, s');
  }

  /** Before shutdown, with all threads started, everything is delivered: whatever the threads' state,
      their own steps lead to rest, where all that was published, with what main was about to publish,
      has been sent in order.  By `OwnStep` no other sequence of their own steps goes on for ever. */
  lemma {:induction false} EverythingDelivered(c: Config, s: State) returns (path: seq<State>)
    requires Sane(c) && Calm(c, s)
    ensures IsPath(c, path) && path[0] == s
    ensures
      var end := path[|path| - 1];
      AllSent(c, end) && forall x :: 0 <= x <= c.topics ==> end.data.published[x] == Due(c, s, x)
    decreases Burden(c, s), Tally(Paces(), s.threads), Remaining(Consumer(c, s).point)
  {
    path := [s];
    if AtRest(c, s) {
      RestIsAllSent(c, s);
    } else {
      var s' := SomeOwnStep(c, s);
      var rest := EverythingDelivered(c, s');
      path := [s] + rest;
    }
  }

  /** Main can start on any event it waits for. */
  lemma Starts(c: Config, s: State, g: Point) returns (s': State)
    requires Sane(c) && Calm(c, s) && s.threads[MainThread(c)].point == Serve(Idle)
    requires MainEntry(c, g) && !g.Halting?
    ensures Next(c, s, s') && Calm(c, s') && s'.data == s.data && s'.threads[MainThread(c)].point == g
  {
    var m := MainThread(c);
    ReachableInv(c, s);
    assert Placed(c, s, m);
    s' := Successors(c, s, m, g, 0);
    assert Exec(c, s, m, g, 0, s') && Step(c, s, m, g, 0, s');
    ReachNext(c, s, m, g, 0, s');
    assert Next(c, s, s');
  }

  lemma JoinPath(c: Config, s: State, path: seq<State>)
    requires IsPath(c, path) && Next(c, s, path[0])
    ensures IsPath(c, [s] + path) && ([s] + path)[0] == s && ([s] + path)[|path|] == path[|path| - 1]
  {
  }

  /** A message that main enqueues, whatever the threads are doing, is published after those before it
      and delivered with them. */
  lemma PublishedIsDelivered(c: Config, s: State, t: nat, m: Message) returns (path: seq<State>)
    requires Sane(c) && Calm(c, s) && s.threads[MainThread(c)].point == Serve(Idle) && t < c.topics
    ensures IsPath(c, path) && path[0] == s
    ensures
      var end, e := path[|path| - 1], Element(Some(m), Subscribers(t));
      && AllSent(c, end) && Of(c, end.data.sent, t) == s.data.published[t] + [e]
      && forall x :: 0 <= x <= c.topics && x != t ==> Of(c, end.data.sent, x) == s.data.published[x]
  {
    var s' := Starts(c, s, Serve(EnqueueEnter(t, m)));
    path := EverythingDelivered(c, s');
    JoinPath(c, s, path);
    path := [s] + path;
  }

  /** And so is an answer. */
  lemma AnswerIsDelivered(c: Config, s: State, socket: int, m: Message) returns (path: seq<State>)
    requires Sane(c) && Calm(c, s) && s.threads[MainThread(c)].point == Serve(Idle)
    ensures IsPath(c, path) && path[0] == s
    ensures
      var end, e := path[|path| - 1], Element(Some(m), Connection(socket));
      && AllSent(c, end) && Of(c, end.data.sent, c.topics) == s.data.published[c.topics] + [e]
      && forall x :: 0 <= x < c.topics ==> Of(c, end.data.sent, x) == s.data.published[x]
  {
    var s' := Starts(c, s, Serve(Respond(socket, m)));
    path := EverythingDelivered(c, s');
    JoinPath(c, s, path);
    path := [s] + path;
  }

  /** Main can start on a shutdown, too. */
  lemma ShutdownStarts(c: Config, s: State) returns (s': State)
    requires Sane(c) && Calm(c, s) && s.threads[MainThread(c)].point == Serve(Idle)
    ensures Next(c, s, s') && s'.threads[MainThread(c)].point == Halting(HaltEnter)
  {
    var m := MainThread(c);
    ReachableInv(c, s);
    assert Placed(c, s, m);
    s' := Successors(c, s, m, Halting(HaltEnter), 0);
    assert Exec(c, s, m, Halting(HaltEnter), 0, s') && Step(c, s, m, Halting(HaltEnter), 0, s');
    assert Next(c, s, s');
  }
}
