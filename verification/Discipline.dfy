/** What can be read off the program text alone: which critical sections a thread is in at each
    point, and the order in which critical sections are entered. */
module Discipline {
  import opened Program

  /** The points of each thread. */
  predicate Fits(c: Config, i: nat, p: Point) {
    match p
    case Ring(_) => i <= c.topics
    case Queue(_) => i < c.topics
    case Quit(_) => i < c.topics || i == ConsumerThread(c)
    case Serve(at) => i == MainThread(c) && ServeFits(c, at)
    case Halting(at) => i == MainThread(c) && HaltFits(c, at)
    case Fetch(_) => i == ConsumerThread(c)
    case Sending(_, _) => i == ConsumerThread(c)
  }

  predicate ServeFits(c: Config, p: ServePoint) {
    match p
    case EnqueueEnter(t, _) => t < c.topics
    case EnqueueLink(t, _) => t < c.topics
    case EnqueueWake(t) => t < c.topics
    case EnqueuePrint(t) => t < c.topics
    case EnqueueShow(t) => t < c.topics
    case EnqueueShown(t) => t < c.topics
    case EnqueueUnprint(t) => t < c.topics
    case EnqueueLeave(t) => t < c.topics
    case _ => true
  }

  predicate HaltFits(c: Config, p: HaltPoint) {
    match p
    case WakeEnter(k) => k <= c.topics
    case WakeQueue(k) => k < c.topics
    case WakeLeave(k) => k < c.topics
    case _ => true
  }

  function RingHeld(p: RingPoint): seq<Lock> {
    match p
    case RingEnter => []
    case RingFlagRead => [RingLock, ShutLock]
    case RingCheckRead => [RingLock, ShutLock]
    case _ => [RingLock]
  }

  function QueueHeld(i: nat, p: QueuePoint): seq<Lock> {
    match p
    case LoopEnter => []
    case LoopRead => [ShutLock]
    case QueueEnter => []
    case QueueFlagRead => [QueueLock(i), ShutLock]
    case QueueCheckRead => [QueueLock(i), ShutLock]
    case _ => [QueueLock(i)]
  }

  function QuitHeld(p: QuitPoint): seq<Lock> {
    match p
    case SignalCount => [ShutLock]
    case SignalWake => [ShutLock]
    case SignalLeave => [ShutLock]
    case _ => []
  }

  function ServeHeld(p: ServePoint): seq<Lock> {
    match p
    case EnqueueLink(t, _) => [QueueLock(t)]
    case EnqueueWake(t) => [QueueLock(t)]
    case EnqueuePrint(t) => [QueueLock(t)]
    case EnqueueShow(t) => [QueueLock(t), PrintLock]
    case EnqueueShown(t) => [QueueLock(t), PrintLock, QueueLock(t)]
    case EnqueueUnprint(t) => [QueueLock(t), PrintLock]
    case EnqueueLeave(t) => [QueueLock(t)]
    case ListLeave(t, _) => [ListLock(t)]
    case PrintList(_) => [PrintLock]
    case PrintListed(t) => [PrintLock, ListLock(t)]
    case PrintLeave => [PrintLock]
    case _ => []
  }

  function HaltHeld(p: HaltPoint): seq<Lock> {
    match p
    case HaltSet => [ShutLock]
    case HaltLeave => [ShutLock]
    case WakeQueue(k) => [QueueLock(k)]
    case WakeLeave(k) => [QueueLock(k)]
    case WakeEmpty => [RingLock]
    case WakeFill => [RingLock]
    case WakeRingLeave => [RingLock]
    case AwaitTest => [ShutLock]
    case AwaitWait => [ShutLock]
    case AwaitLeave => [ShutLock]
    case _ => []
  }

  function FetchHeld(p: FetchPoint): seq<Lock> {
    match p
    case FetchEnter => []
    case FetchRead => [ShutLock]
    case FillEnter => []
    case FillFlagRead => [RingLock, ShutLock]
    case TakenRead => [RingLock, ShutLock]
    case _ => [RingLock]
  }

  function SendHeld(p: SendPoint): seq<Lock> {
    match p
    case Announced(_) => [PrintLock]
    case WalkBegin(t) => [ListLock(t)]
    case WalkAt(t, _) => [ListLock(t)]
    case PollErrorLeave(_) => [PrintLock]
    case SendErrorLeave(_) => [PrintLock]
    case _ => []
  }

  /** The critical sections a running thread is in at `p`. */
  function Held(i: nat, p: Point): seq<Lock> {
    match p
    case Ring(at) => RingHeld(at)
    case Queue(at) => QueueHeld(i, at)
    case Quit(at) => QuitHeld(at)
    case Serve(at) => ServeHeld(at)
    case Halting(at) => HaltHeld(at)
    case Fetch(at) => FetchHeld(at)
    case Sending(final, at) => (if final then [RingLock] else []) + SendHeld(at)
  }

  /** The lock order. */
  function Rank(l: Lock): nat {
    match l
    case QueueLock(_) => 0
    case RingLock => 1
    case PrintLock => 2
    case ListLock(_) => 3
    case ShutLock => 4
  }

  /** `q` is a point of thread `i` with `held` as its critical sections. */
  ghost predicate At(c: Config, i: nat, q: Point, held: seq<Lock>) {
    Fits(c, i, q) && Held(i, q) == held
  }

  /** The data an instruction touches is touched under its lock, only the innermost section is
      left, and a sleep releases the only one. */
  ghost predicate Protected(c: Config, i: nat, held: seq<Lock>, instr: Instr) {
    match instr
    case Do(Leave(l), _) => Innermost(held, l)
    case Do(Sleep(_, l), _) => held == [l]
    case Do(Put, _) => RingLock in held
    case Do(Get, _) => RingLock in held
    case Do(Dequeue(t), _) => t < c.topics && QueueLock(t) in held
    case Do(Enqueue(t, _), _) => t < c.topics && QueueLock(t) in held
    case Do(Drop, _) => i <= c.topics
    case Do(SetFlag, _) => ShutLock in held
    case Do(CountSignal, _) => ShutLock in held
    case If(Flag, _, _) => Innermost(held, ShutLock)
    case If(Count(_), _, _) => RingLock in held
    case If(QueueEmpty(t), _, _) => t < c.topics && QueueLock(t) in held
    case If(FewSignals, _, _) => ShutLock in held
    case Stop => held == []
    case _ => true
  }

  /** The instruction at `p` keeps to the critical sections, and every path agrees on what is held
      at each point. */
  ghost predicate Disciplined(c: Config, i: nat, p: Point) {
    var h, instr := Held(i, p), Instruction(c, i, p);
    && Protected(c, i, h, instr)
    && match instr
       case Do(op, next) => At(c, i, next, if op.Sleep? then h else HeldAfter(h, instr))
       case If(_, yes, no) => At(c, i, yes, HeldAfter(h, instr)) && At(c, i, no, HeldAfter(h, instr))
       case Jump => forall q :: Successor(c, p, q) ==> At(c, i, q, h)
       case Stop => true
  }

  lemma RingDisciplined(c: Config, i: nat, p: RingPoint)
    requires i <= c.topics
    ensures Disciplined(c, i, Ring(p))
  {
  }

  lemma QueueDisciplined(c: Config, i: nat, p: QueuePoint)
    requires i < c.topics
    ensures Disciplined(c, i, Queue(p))
  {
  }

  lemma ServeDisciplined(c: Config, p: ServePoint)
    requires ServeFits(c, p)
    ensures Disciplined(c, MainThread(c), Serve(p))
  {
  }

  lemma HaltDisciplined(c: Config, p: HaltPoint)
    requires HaltFits(c, p)
    ensures Disciplined(c, MainThread(c), Halting(p))
  {
  }

  lemma FetchDisciplined(c: Config, p: FetchPoint)
    ensures Disciplined(c, ConsumerThread(c), Fetch(p))
  {
  }

  lemma SendSuccessors(c: Config, final: bool, p: SendPoint, q: Point)
    requires Successor(c, Sending(final, p), q)
    ensures q.Sending? && q.final == final && SendHeld(q.send) == SendHeld(p)
  {
  }

  /** Within a send, critical sections are entered and left one at a time. */
  lemma SendChanges(c: Config, final: bool, p: SendPoint)
    ensures
      match SendInstr(final, p)
      case Do(Enter(l), next) => SendHeld(p) == [] && next.Sending? && next.final == final && SendHeld(next.send) == [l]
      case Do(Leave(l), next) => SendHeld(p) == [l] && next.Sending? && next.final == final && SendHeld(next.send) == []
      case Do(Deliver, next) => SendHeld(p) == [] && next == if final then Fetch(FinalLeave) else Fetch(FetchEnter)
      case Jump => true
      case _ => false
  {
  }

  lemma SendDisciplined(c: Config, final: bool, p: SendPoint)
    ensures Disciplined(c, ConsumerThread(c), Sending(final, p))
  {
    SendChanges(c, final, p);
    forall q | Successor(c, Sending(final, p), q)
      ensures At(c, ConsumerThread(c), q, Held(ConsumerThread(c), Sending(final, p)))
    {
      SendSuccessors(c, final, p, q);
    }
  }

  lemma AllDisciplined(c: Config, i: nat, p: Point)
    requires Fits(c, i, p)
    ensures Disciplined(c, i, p)
  {
    match p
    case Ring(at) => RingDisciplined(c, i, at);
    case Queue(at) => QueueDisciplined(c, i, at);
    case Quit(at) =>
    case Serve(at) => ServeDisciplined(c, at);
    case Halting(at) => HaltDisciplined(c, at);
    case Fetch(at) => FetchDisciplined(c, at);
    case Sending(final, at) => SendDisciplined(c, final, at);
  }

  ghost predicate EntersLock(instr: Instr, l: Lock) {
    instr.Do? && instr.op == Enter(l)
  }

  /** Critical sections are entered in increasing rank, except one the thread is already in. */
  lemma EntersInOrder(c: Config, i: nat, p: Point, l: Lock, h: Lock)
    requires Fits(c, i, p) && EntersLock(Instruction(c, i, p), l) && h in Held(i, p)
    ensures l in Held(i, p) || Rank(h) < Rank(l)
  {
  }

  /** The control flow: `q` may be the point after the instruction at `p`. */
  ghost predicate Edge(c: Config, i: nat, p: Point, q: Point) {
    match Instruction(c, i, p)
    case Do(op, next) => q == next || (op.Sleep? && q == p)
    case If(_, yes, no) => q == yes || q == no
    case Jump => Successor(c, p, q)
    case Stop => false
  }
}
