/** The code of the broker's threads, as data.

    The broker runs one producer thread per topic, a main thread and a consumer thread.
    A program point (`Point`) is a place in one of their functions where a thread can be
    preempted, and `Instruction` says what the thread does there.  One instruction is one
    entry into or exit from a critical section, one test, one access to the data a critical
    section protects, or one operation on a condition variable.

    Threads are numbered: `0 .. topics - 1` are the producers (`produce`), `topics` is the main
    thread and `topics + 1` the consumer (`consume`). */
module Program {
  import opened Options

  type Message = string

  /** Where an outgoing element goes: the subscribers of a topic, or one connection. */
  datatype Target = Subscribers(topic: nat) | Connection(socket: int)

  /** An element of the outgoing buffer.  `None` stands for a null message pointer. */
  datatype Element = Element(message: Option<Message>, target: Target)

  datatype Lock = QueueLock(topic: nat) | RingLock | PrintLock | ListLock(topic: nat) | ShutLock

  datatype CondVar = QueueCv(topic: nat) | EmptyCv | FillCv | ShutCv

  /** The number of topics and the capacity of the outgoing buffer. */
  datatype Config = Config(topics: nat, capacity: nat)

  ghost predicate Sane(c: Config) {
    0 < c.capacity
  }

  function MainThread(c: Config): nat {
    c.topics
  }

  function ConsumerThread(c: Config): nat {
    c.topics + 1
  }

  /** What is left of a send: one response, or a walk over the subscribers of a topic with
      `left` nodes still to be visited. */
  datatype Route = Single | Walk(topic: nat, left: nat)

  /** produce_new_message, called by the producers and by the main thread. */
  datatype RingPoint =
    | RingEnter | RingTest | RingFlagEnter | RingFlagRead | RingWait
    | RingCheckEnter | RingCheckRead | RingPut | RingWake | RingDrop | RingLeave

  /** The loop of produce, with dequeue in it. */
  datatype QueuePoint =
    | LoopEnter | LoopRead
    | QueueEnter | QueueTest | QueueFlagEnter | QueueFlagRead | QueueWait
    | QueueCheckEnter | QueueCheckRead | QueueNull | QueueTake | QueueLeave

  /** signal_shut_down, and the ends of a thread. */
  datatype QuitPoint = Unstarted | SignalEnter | SignalCount | SignalWake | SignalLeave | Done

  /** The main thread serving events: enqueue, responses, list operations and console output. */
  datatype ServePoint =
    | Idle
    | EnqueueEnter(topic: nat, message: Message) | EnqueueLink(topic: nat, message: Message)
    | EnqueueWake(topic: nat) | EnqueuePrint(topic: nat) | EnqueueShow(topic: nat)
    | EnqueueShown(topic: nat) | EnqueueUnprint(topic: nat) | EnqueueLeave(topic: nat)
    | Respond(socket: int, message: Message)
    | ListEnter(topic: nat, show: bool) | ListLeave(topic: nat, show: bool)
    | PrintEnter(topic: nat) | PrintList(topic: nat) | PrintListed(topic: nat)
    | NoteEnter | PrintLeave

  /** The main thread in shut_down_threads; at `Freed` it goes on to free everything. */
  datatype HaltPoint =
    | HaltEnter | HaltSet | HaltLeave
    | WakeEnter(topic: nat) | WakeQueue(topic: nat) | WakeLeave(topic: nat)
    | WakeEmpty | WakeFill | WakeRingLeave
    | AwaitEnter | AwaitTest | AwaitWait | AwaitLeave | Freed

  /** The loop of consume. */
  datatype FetchPoint =
    | FetchEnter | FetchRead | FillEnter | FillTest | FillFlagEnter | FillFlagRead | FillWait
    | FillTake | TakenEnter | TakenRead | TakenWake | FillLeave | FinalLeave

  /** send_subscription_message_or_response. */
  datatype SendPoint =
    | SendStart | Announce(topic: nat) | Announced(topic: nat)
    | WalkStart(topic: nat) | WalkBegin(topic: nat)
    | WalkEnter(topic: nat, left: nat) | WalkAt(topic: nat, left: nat)
    | Poll(route: Route) | PollError(route: Route) | PollErrorLeave(route: Route)
    | Send(route: Route) | SendError(route: Route) | SendErrorLeave(route: Route)
    | Delivered

  /** `final` means that the outgoing buffer is still locked during the send. */
  datatype Point =
    | Ring(ring: RingPoint)
    | Queue(queue: QueuePoint)
    | Quit(quit: QuitPoint)
    | Serve(serve: ServePoint)
    | Halting(halt: HaltPoint)
    | Fetch(fetch: FetchPoint)
    | Sending(final: bool, send: SendPoint)

  datatype Op =
    | Enter(lock: Lock)                        // EnterCriticalSection
    | Leave(lock: Lock)                        // LeaveCriticalSection
    | Sleep(cv: CondVar, lock: Lock)           // SleepConditionVariableCS
    | Wake(cv: CondVar)                        // WakeConditionVariable
    | WakeAll(cv: CondVar)                     // WakeAllConditionVariable
    | Put                                      // put
    | Get                                      // get
    | Drop                                     // return without calling put
    | Dequeue(topic: nat)                      // dequeue_unsafe
    | HoldNull(topic: nat)                     // dequeue returns NULL
    | Enqueue(topic: nat, message: Message)    // enqueue_unsafe
    | Issue(socket: int, message: Message)     // a response is ready
    | Deliver                                  // the element has been sent
    | SetFlag                                  // shutting_down.flag = true
    | CountSignal                              // num_of_shut_down_threads++

  datatype Test =
    | Flag                                     // is_shutting_down, after its EnterCriticalSection, and leave
    | Count(count: int)                        // the buffer's count equals `count`
    | QueueEmpty(topic: nat)                   // a queue's head is null
    | FewSignals                               // num_of_shut_down_threads < number_of_topics + 1

  datatype Instr =
    | Do(op: Op, next: Point)
    | If(test: Test, yes: Point, no: Point)
    | Jump                                     // a choice made outside the model
    | Stop

  predicate Sleeps(instr: Instr) {
    instr.Do? && instr.op.Sleep?
  }

  /** The critical sections a thread is in after an instruction, innermost last; while it sleeps
      it is out of the one it sleeps on. */
  function HeldAfter(held: seq<Lock>, instr: Instr): seq<Lock> {
    match instr
    case Do(Enter(l), _) => held + [l]
    case Do(Leave(_), _) => Outer(held)
    case Do(Sleep(_, _), _) => Outer(held)
    case If(Flag, _, _) => Outer(held)
    case _ => held
  }

  function Outer(held: seq<Lock>): seq<Lock> {
    if held == [] then [] else held[..|held| - 1]
  }

  predicate Innermost(held: seq<Lock>, l: Lock) {
    held != [] && held[|held| - 1] == l
  }

  function RingInstr(c: Config, i: nat, p: RingPoint): Instr {
    match p
    case RingEnter => Do(Enter(RingLock), Ring(RingTest))
    case RingTest => If(Count(c.capacity), Ring(RingFlagEnter), Ring(RingCheckEnter))
    case RingFlagEnter => Do(Enter(ShutLock), Ring(RingFlagRead))
    case RingFlagRead => If(Flag, Ring(RingCheckEnter), Ring(RingWait))
    case RingWait => Do(Sleep(EmptyCv, RingLock), Ring(RingTest))
    case RingCheckEnter => Do(Enter(ShutLock), Ring(RingCheckRead))
    case RingCheckRead => If(Flag, Ring(RingDrop), Ring(RingPut))
    case RingPut => Do(Put, Ring(RingWake))
    case RingWake => Do(Wake(FillCv), Ring(RingLeave))
    case RingDrop => Do(Drop, Ring(RingLeave))
    case RingLeave => Do(Leave(RingLock), if i == MainThread(c) then Serve(Idle) else Queue(LoopEnter))
  }

  function QueueInstr(i: nat, p: QueuePoint): Instr {
    match p
    case LoopEnter => Do(Enter(ShutLock), Queue(LoopRead))
    case LoopRead => If(Flag, Quit(SignalEnter), Queue(QueueEnter))
    case QueueEnter => Do(Enter(QueueLock(i)), Queue(QueueTest))
    case QueueTest => If(QueueEmpty(i), Queue(QueueFlagEnter), Queue(QueueCheckEnter))
    case QueueFlagEnter => Do(Enter(ShutLock), Queue(QueueFlagRead))
    case QueueFlagRead => If(Flag, Queue(QueueCheckEnter), Queue(QueueWait))
    case QueueWait => Do(Sleep(QueueCv(i), QueueLock(i)), Queue(QueueTest))
    case QueueCheckEnter => Do(Enter(ShutLock), Queue(QueueCheckRead))
    case QueueCheckRead => If(Flag, Queue(QueueNull), Queue(QueueTake))
    case QueueNull => Do(HoldNull(i), Queue(QueueLeave))
    case QueueTake => Do(Dequeue(i), Queue(QueueLeave))
    case QueueLeave => Do(Leave(QueueLock(i)), Ring(RingEnter))
  }

  function QuitInstr(p: QuitPoint): Instr {
    match p
    case Unstarted => Stop
    case SignalEnter => Do(Enter(ShutLock), Quit(SignalCount))
    case SignalCount => Do(CountSignal, Quit(SignalWake))
    case SignalWake => Do(Wake(ShutCv), Quit(SignalLeave))
    case SignalLeave => Do(Leave(ShutLock), Quit(Done))
    case Done => Stop
  }

  function ServeInstr(p: ServePoint): Instr {
    match p
    case Idle => Jump
    case EnqueueEnter(t, m) => Do(Enter(QueueLock(t)), Serve(EnqueueLink(t, m)))
    case EnqueueLink(t, m) => Do(Enqueue(t, m), Serve(EnqueueWake(t)))
    case EnqueueWake(t) => Do(Wake(QueueCv(t)), Serve(EnqueuePrint(t)))
    case EnqueuePrint(t) => Do(Enter(PrintLock), Serve(EnqueueShow(t)))
    case EnqueueShow(t) => Do(Enter(QueueLock(t)), Serve(EnqueueShown(t)))
    case EnqueueShown(t) => Do(Leave(QueueLock(t)), Serve(EnqueueUnprint(t)))
    case EnqueueUnprint(t) => Do(Leave(PrintLock), Serve(EnqueueLeave(t)))
    case EnqueueLeave(t) => Do(Leave(QueueLock(t)), Serve(Idle))
    case Respond(socket, m) => Do(Issue(socket, m), Ring(RingEnter))
    case ListEnter(t, show) => Do(Enter(ListLock(t)), Serve(ListLeave(t, show)))
    case ListLeave(t, show) => Do(Leave(ListLock(t)), Serve(if show then PrintEnter(t) else Idle))
    case PrintEnter(t) => Do(Enter(PrintLock), Serve(PrintList(t)))
    case PrintList(t) => Do(Enter(ListLock(t)), Serve(PrintListed(t)))
    case PrintListed(t) => Do(Leave(ListLock(t)), Serve(PrintLeave))
    case NoteEnter => Do(Enter(PrintLock), Serve(PrintLeave))
    case PrintLeave => Do(Leave(PrintLock), Serve(Idle))
  }

  function HaltInstr(c: Config, p: HaltPoint): Instr {
    match p
    case HaltEnter => Do(Enter(ShutLock), Halting(HaltSet))
    case HaltSet => Do(SetFlag, Halting(HaltLeave))
    case HaltLeave => Do(Leave(ShutLock), Halting(WakeEnter(0)))
    case WakeEnter(k) =>
      if k < c.topics then Do(Enter(QueueLock(k)), Halting(WakeQueue(k))) else Do(Enter(RingLock), Halting(WakeEmpty))
    case WakeQueue(k) => Do(Wake(QueueCv(k)), Halting(WakeLeave(k)))
    case WakeLeave(k) => Do(Leave(QueueLock(k)), Halting(WakeEnter(k + 1)))
    case WakeEmpty => Do(WakeAll(EmptyCv), Halting(WakeFill))
    case WakeFill => Do(WakeAll(FillCv), Halting(WakeRingLeave))
    case WakeRingLeave => Do(Leave(RingLock), Halting(AwaitEnter))
    case AwaitEnter => Do(Enter(ShutLock), Halting(AwaitTest))
    case AwaitTest => If(FewSignals, Halting(AwaitWait), Halting(AwaitLeave))
    case AwaitWait => Do(Sleep(ShutCv, ShutLock), Halting(AwaitTest))
    case AwaitLeave => Do(Leave(ShutLock), Halting(Freed))
    case Freed => Stop
  }

  function FetchInstr(p: FetchPoint): Instr {
    match p
    case FetchEnter => Do(Enter(ShutLock), Fetch(FetchRead))
    case FetchRead => If(Flag, Quit(SignalEnter), Fetch(FillEnter))
    case FillEnter => Do(Enter(RingLock), Fetch(FillTest))
    case FillTest => If(Count(0), Fetch(FillFlagEnter), Fetch(FillTake))
    case FillFlagEnter => Do(Enter(ShutLock), Fetch(FillFlagRead))
    case FillFlagRead => If(Flag, Fetch(FillTake), Fetch(FillWait))
    case FillWait => Do(Sleep(FillCv, RingLock), Fetch(FillTest))
    case FillTake => Do(Get, Fetch(TakenEnter))
    case TakenEnter => Do(Enter(ShutLock), Fetch(TakenRead))
    case TakenRead => If(Flag, Sending(true, SendStart), Fetch(TakenWake))
    case TakenWake => Do(Wake(EmptyCv), Fetch(FillLeave))
    case FillLeave => Do(Leave(RingLock), Sending(false, SendStart))
    case FinalLeave => Do(Leave(RingLock), Quit(SignalEnter))
  }

  /** The point after a send over `route`. */
  function AfterSend(route: Route): SendPoint {
    match route
    case Single => Delivered
    case Walk(t, left) => WalkEnter(t, left)
  }

  function SendInstr(final: bool, p: SendPoint): Instr {
    match p
    case SendStart => Jump
    case Announce(t) => Do(Enter(PrintLock), Sending(final, Announced(t)))
    case Announced(t) => Do(Leave(PrintLock), Sending(final, WalkStart(t)))
    case WalkStart(t) => Do(Enter(ListLock(t)), Sending(final, WalkBegin(t)))
    case WalkBegin(_) => Jump
    case WalkEnter(t, left) => Do(Enter(ListLock(t)), Sending(final, WalkAt(t, left)))
    case WalkAt(t, left) =>
      Do(Leave(ListLock(t)), Sending(final, if left == 0 then Delivered else Poll(Walk(t, left - 1))))
    case Poll(_) => Jump
    case PollError(route) => Do(Enter(PrintLock), Sending(final, PollErrorLeave(route)))
    case PollErrorLeave(route) => Do(Leave(PrintLock), Sending(final, Send(route)))
    case Send(_) => Jump
    case SendError(route) => Do(Enter(PrintLock), Sending(final, SendErrorLeave(route)))
    case SendErrorLeave(route) => Do(Leave(PrintLock), Sending(final, AfterSend(route)))
    case Delivered => Do(Deliver, if final then Fetch(FinalLeave) else Fetch(FetchEnter))
  }

  function Instruction(c: Config, i: nat, p: Point): Instr {
    match p
    case Ring(at) => RingInstr(c, i, at)
    case Queue(at) => QueueInstr(i, at)
    case Quit(at) => QuitInstr(at)
    case Serve(at) => ServeInstr(at)
    case Halting(at) => HaltInstr(c, at)
    case Fetch(at) => FetchInstr(at)
    case Sending(final, at) => SendInstr(final, at)
  }

  /** The points at which the main thread starts serving an event. */
  predicate MainEntry(c: Config, p: Point) {
    if p.Halting? then p.halt.HaltEnter?
    else
      p.Serve? &&
      match p.serve
      case EnqueueEnter(t, _) => t < c.topics
      case Respond(_, _) => true
      case ListEnter(t, _) => t < c.topics
      case PrintEnter(t) => t < c.topics
      case NoteEnter => true
      case _ => false
  }

  /** Where a `Jump` at `p` may lead: the next event of the main thread, the two ways to send
      (the element decides which), the length of the list a walk finds, and the success of
      `select` and `send`. */
  predicate Successor(c: Config, p: Point, q: Point) {
    if p == Serve(Idle) then MainEntry(c, q)
    else
      && p.Sending? && q.Sending? && q.final == p.final
      && match p.send
         case SendStart => q.send.Announce? || q.send == Poll(Single)
         case WalkBegin(t) => q.send.WalkAt? && q.send.topic == t
         case Poll(route) => q.send == Send(route) || q.send == PollError(route)
         case Send(route) => q.send == AfterSend(route) || q.send == SendError(route)
         case _ => false
  }
}
