/** After shut_down_threads has done its wakes, every producer and the consumer runs to its end. */
module Drain {
  import opened Program
  import opened Discipline
  import opened Machine
  import opened Locking
  import opened Knowledge
  import opened Shutdown

  function RingStage(p: RingPoint): nat {
    match p
    case RingEnter => 22
    case RingWait => 21
    case RingTest => 20
    case RingFlagEnter => 19
    case RingFlagRead => 18
    case RingCheckEnter => 17
    case RingCheckRead => 16
    case RingDrop => 15
    case RingPut => 15
    case RingWake => 14
    case RingLeave => 13
  }

  function QueueStage(p: QueuePoint): nat {
    match p
    case QueueEnter => 31
    case QueueWait => 30
    case QueueTest => 29
    case QueueFlagEnter => 28
    case QueueFlagRead => 27
    case QueueCheckEnter => 26
    case QueueCheckRead => 25
    case QueueNull => 24
    case QueueTake => 24
    case QueueLeave => 23
    case LoopEnter => 12
    case LoopRead => 11
  }

  function FetchStage(p: FetchPoint): nat {
    match p
    case FillEnter => 31
    case FillWait => 30
    case FillTest => 29
    case FillFlagEnter => 28
    case FillFlagRead => 27
    case FillTake => 26
    case TakenEnter => 25
    case TakenRead => 24
    case TakenWake => 23
    case FillLeave => 22
    case FinalLeave => 13
    case FetchEnter => 13
    case FetchRead => 12
  }

  function SendStage(p: SendPoint): nat {
    match p
    case SendStart => 21
    case Announce(_) => 20
    case Announced(_) => 19
    case WalkStart(_) => 18
    case WalkBegin(_) => 17
    case Delivered => 14
    case _ => 15
  }

  function QuitStage(p: QuitPoint): nat {
    match p
    case SignalEnter => 4
    case SignalCount => 3
    case SignalWake => 2
    case SignalLeave => 1
    case _ => 0
  }

  /** How far a producer or the consumer is from its end when the flag is set. */
  function Stage(p: Point): nat {
    match p
    case Ring(at) => RingStage(at)
    case Queue(at) => QueueStage(at)
    case Fetch(at) => FetchStage(at)
    case Sending(_, at) => SendStage(at)
    case Quit(at) => QuitStage(at)
    case _ => 0
  }

  function Left(r: Route): nat {
    match r
    case Single => 0
    case Walk(_, left) => left
  }

  /** Within the sending stage: the nodes still to be visited, then the steps for one node. */
  function Remaining(p: Point): nat {
    if !p.Sending? then 0
    else
      match p.send
      case Poll(r) => 10 * Left(r) + 9
      case PollError(r) => 10 * Left(r) + 8
      case PollErrorLeave(r) => 10 * Left(r) + 7
      case Send(r) => 10 * Left(r) + 6
      case SendError(r) => 10 * Left(r) + 5
      case SendErrorLeave(r) => 10 * Left(r) + 4
      case WalkEnter(_, left) => 10 * left + 3
      case WalkAt(_, left) => 10 * left + 2
      case _ => 0
  }

  predicate Closer(q: Point, p: Point) {
    Stage(q) < Stage(p) || (Stage(q) == Stage(p) && Remaining(q) < Remaining(p))
  }

  /** Closer to the end, or one of the two branches taken when the flag is clear, or asleep. */
  ghost predicate Drains(c: Config, i: nat, p: Point, q: Point) {
    var instr := Instruction(c, i, p);
    || Closer(q, p)
    || (instr.If? && instr.test == Flag && q == instr.no && q != instr.yes)
    || (q == p && Sleeps(instr))
  }

  lemma RingCloser(c: Config, i: nat, p: RingPoint, q: Point)
    requires i < c.topics && Edge(c, i, Ring(p), q)
    ensures Drains(c, i, Ring(p), q)
  {
  }

  lemma QueueCloser(c: Config, i: nat, p: QueuePoint, q: Point)
    requires i < c.topics && Edge(c, i, Queue(p), q)
    ensures Drains(c, i, Queue(p), q)
  {
  }

  lemma FetchCloser(c: Config, p: FetchPoint, q: Point)
    requires Edge(c, ConsumerThread(c), Fetch(p), q)
    ensures Drains(c, ConsumerThread(c), Fetch(p), q)
  {
  }

  /** So does every edge of the control flow. */
  lemma EdgeCloser(c: Config, i: nat, p: Point, q: Point)
    requires Fits(c, i, p) && i != MainThread(c) && Edge(c, i, p, q)
    ensures Drains(c, i, p, q)
  {
    match p
    case Ring(at) => RingCloser(c, i, at, q);
    case Queue(at) => QueueCloser(c, i, at, q);
    case Fetch(at) => FetchCloser(c, at, q);
    case Sending(final, at) => SendCloser(c, final, at, q);
    case _ =>
  }

  lemma SendCloser(c: Config, final: bool, p: SendPoint, q: Point)
    requires Edge(c, ConsumerThread(c), Sending(final, p), q)
    ensures Closer(q, Sending(final, p))
  {
  }

  /** With the flag set and every wake done, each step of a producer or of the consumer leads it
      closer to its end.  `Closer` is well founded; `Handshake` follows the steps to the end. */
  lemma WorkerStepsCloser(c: Config, s: State, i: nat, g: Point, w: nat, s': State)
    requires Safe(c, s) && NoneMissed(c, s) && PassedFill(s.threads[MainThread(c)].point) && !s.data.stale
    requires i < |s.threads| && i != MainThread(c) && Step(c, s, i, g, w, s')
    ensures |s'.threads| == |s.threads| && Closer(s'.threads[i].point, s.threads[i].point)
  {
    assert Placed(c, s, i);
    var p := s.threads[i].point;
    StepEdge(c, s, i, g, w, s');
    NeverAsleep(c, s, i);
    EdgeCloser(c, i, p, s'.threads[i].point);
  }

  /** Only three points of a producer or of the consumer can sleep, and none does. */
  lemma NeverAsleep(c: Config, s: State, i: nat)
    requires Safe(c, s) && NoneMissed(c, s) && PassedFill(s.threads[MainThread(c)].point)
    requires i < |s.threads| && i != MainThread(c)
    ensures s.threads[i].status != Asleep
    ensures s.threads[i].status == Running ==> !Sleeps(Instruction(c, i, s.threads[i].point))
  {
    assert Placed(c, s, i);
    var p, m := s.threads[i].point, s.threads[MainThread(c)].point;
    if Sleeps(Instruction(c, i, p)) {
      assert p in {Queue(QueueWait), Ring(RingWait), Fetch(FillWait)};
      if i < c.topics {
        assert PassedQueue(m, i) && PassedEmpty(m);
      }
    }
  }
}
