/** How the threads of `Program` run together: one step of one thread at a time, any thread first. */
module Machine {
  import opened Options
  import opened Program
  import R = Ring

  datatype Status = Running | Asleep | Woken

  /** A thread: its program point, whether it sleeps on a condition variable, the critical
      sections it is in, innermost last, and the element it carries.  A thread that enters a
      section it is already in appears in it twice. */
  datatype Thread = Thread(point: Point, status: Status, held: seq<Lock>, hand: Option<Element>)

  /** What the threads share.  Stream `x < topics` is what was published on topic `x`; stream
      `topics` is the responses.  `published`, `sent`, `dropped` and `stale` record what
      happened and steer nothing: `dropped` is what a producer carried when it gave up, `stale`
      says that `get` read an empty buffer. */
  datatype Data = Data(
    flag: bool, signals: nat, ring: R.Ring<Element>, queues: seq<seq<Message>>,
    published: seq<seq<Element>>, sent: seq<Element>, dropped: seq<seq<Element>>,
    stale: bool)

  datatype State = State(data: Data, threads: seq<Thread>)

  ghost predicate Sized(c: Config, d: Data) {
    && R.Indexed(d.ring) && |d.ring.slots| == c.capacity
    && |d.queues| == c.topics && |d.published| == |d.dropped| == c.topics + 1
  }

  ghost predicate Shape(c: Config, s: State) {
    Sized(c, s.data) && |s.threads| == c.topics + 2
  }

  /** Any subset of the producers and the consumer may have failed to start. */
  ghost predicate Init(c: Config, s: State) {
    && Shape(c, s)
    && !s.data.flag && s.data.signals == 0 && !s.data.stale
    && s.data.ring.fillIdx == 0 && s.data.ring.useIdx == 0 && s.data.ring.count == 0
    && (forall t :: 0 <= t < c.topics ==> s.data.queues[t] == [])
    && (forall x :: 0 <= x <= c.topics ==> s.data.published[x] == [] && s.data.dropped[x] == [])
    && s.data.sent == []
    && (forall i :: 0 <= i < |s.threads| ==> InitialThread(c, i, s.threads[i]))
  }

  ghost predicate InitialThread(c: Config, i: nat, th: Thread) {
    && th.status == Running && th.held == [] && th.hand == None
    && if i == MainThread(c) then th.point == Serve(Idle)
       else th.point == Quit(Unstarted)
            || th.point == if i == ConsumerThread(c) then Fetch(FetchEnter) else Queue(LoopEnter)
  }

  /** No thread but `i` is in the critical section. */
  ghost predicate Free(s: State, i: nat, l: Lock) {
    forall j :: 0 <= j < |s.threads| && j != i ==> l !in s.threads[j].held
  }

  /** Thread `th` with number `j` is asleep on `cv` and has not been woken. */
  ghost predicate SleepsOn(c: Config, j: nat, th: Thread, cv: CondVar) {
    && th.status == Asleep
    && match Instruction(c, j, th.point)
       case Do(Sleep(v, _), _) => v == cv
       case _ => false
  }

  /** The element of a hand that carries a real message. */
  ghost function Real(hand: Option<Element>): (e: seq<Element>) {
    if hand.Some? && hand.value.message.Some? then [hand.value] else []
  }

  ghost predicate Holds(c: Config, d: Data, t: Test)
    requires Sized(c, d)
  {
    match t
    case Flag => d.flag
    case Count(k) => d.ring.count == k
    case QueueEmpty(t) => t < c.topics && d.queues[t] == []
    case FewSignals => d.signals < c.topics + 1
  }

  /** The first step of a send goes by the kind of element. */
  ghost predicate Dispatches(p: Point, hand: Option<Element>, g: Point) {
    p.Sending? && p.send == SendStart ==>
      hand.Some? && g.Sending? && g.send ==
        if hand.value.target.Subscribers? then Announce(hand.value.target.topic) else Poll(Single)
  }

  /** What it takes for thread `i` to execute its instruction now.  Critical sections are left
      innermost first, as the source does; that this always holds is part of `NotStuck`. */
  ghost predicate Guard(c: Config, s: State, i: nat, g: Point)
    requires Shape(c, s) && i < |s.threads|
  {
    var th := s.threads[i];
    match Instruction(c, i, th.point)
    case Do(op, _) => OpGuard(c, s, i, op)
    case If(test, _, _) => test == Flag ==> Innermost(th.held, ShutLock)
    case Jump => Successor(c, th.point, g) && Dispatches(th.point, th.hand, g)
    case Stop => false
  }

  ghost predicate OpGuard(c: Config, s: State, i: nat, op: Op)
    requires Shape(c, s) && i < |s.threads|
  {
    match op
    case Enter(l) => Free(s, i, l)
    case Leave(l) => Innermost(s.threads[i].held, l)
    case Sleep(_, l) => Innermost(s.threads[i].held, l)
    case Dequeue(t) => t < c.topics
    case Enqueue(t, _) => t < c.topics
    case Drop => i <= c.topics
    case Put => s.threads[i].hand.Some?
    case Deliver => s.threads[i].hand.Some?
    case _ => true
  }

  /** The point after the instruction; `g` is the target of a `Jump`.  A thread that goes to sleep
      stays at its sleep. */
  ghost function PointAfter(c: Config, s: State, i: nat, g: Point): Point
    requires Shape(c, s) && i < |s.threads|
  {
    var p := s.threads[i].point;
    match Instruction(c, i, p)
    case Do(op, next) => if op.Sleep? then p else next
    case If(test, yes, no) => if Holds(c, s.data, test) then yes else no
    case Jump => g
    case Stop => p
  }

  ghost function HandAfter(c: Config, d: Data, hand: Option<Element>, op: Op): Option<Element>
    requires Sized(c, d)
  {
    match op
    case Put => None
    case Get => Some(R.Head(d.ring))
    case Drop => None
    case Dequeue(t) =>
      if t < c.topics && d.queues[t] != [] then Some(Element(Some(d.queues[t][0]), Subscribers(t)))
      else Some(Element(None, Subscribers(t)))
    case HoldNull(t) => Some(Element(None, Subscribers(t)))
    case Issue(socket, m) => Some(Element(Some(m), Connection(socket)))
    case Deliver => None
    case _ => hand
  }

  ghost function ThreadAfter(c: Config, s: State, i: nat, g: Point): Thread
    requires Shape(c, s) && i < |s.threads|
  {
    var th, instr := s.threads[i], Instruction(c, i, s.threads[i].point);
    Thread(PointAfter(c, s, i, g),
           if Sleeps(instr) then Asleep else Running,
           HeldAfter(th.held, instr),
           if instr.Do? then HandAfter(c, s.data, th.hand, instr.op) else th.hand)
  }

  /** The shared data after an operation of thread `i`. */
  ghost function DataAfter(c: Config, s: State, i: nat, op: Op): Data
    requires Shape(c, s) && i < |s.threads| && OpGuard(c, s, i, op)
  {
    var d, hand := s.data, s.threads[i].hand;
    match op
    case Put => d.(ring := R.AfterPut(d.ring, hand.value))
    case Get => d.(ring := R.AfterGet(d.ring), stale := d.stale || d.ring.count == 0)
    case Drop => d.(dropped := d.dropped[i := d.dropped[i] + Real(hand)])
    case Dequeue(t) => if d.queues[t] == [] then d else d.(queues := d.queues[t := d.queues[t][1..]])
    case Enqueue(t, m) =>
      d.(queues := d.queues[t := d.queues[t] + [m]],
         published := d.published[t := d.published[t] + [Element(Some(m), Subscribers(t))]])
    case Issue(socket, m) =>
      d.(published := d.published[c.topics := d.published[c.topics] + [Element(Some(m), Connection(socket))]])
    case Deliver => d.(sent := d.sent + [hand.value])
    case SetFlag => d.(flag := true)
    case CountSignal => d.(signals := d.signals + 1)
    case _ => d
  }

  /** What the instruction does to another thread `j`: `Wake` wakes the one sleeper `w`, `WakeAll`
      all of them. */
  ghost function Roused(c: Config, instr: Instr, w: nat, j: nat, th: Thread): Thread {
    match instr
    case Do(Wake(cv), _) => if j == w && SleepsOn(c, j, th, cv) then th.(status := Woken) else th
    case Do(WakeAll(cv), _) => if SleepsOn(c, j, th, cv) then th.(status := Woken) else th
    case _ => th
  }

  /** A `Wake` has to wake a sleeper when there is one. */
  ghost predicate WakesOne(c: Config, s: State, instr: Instr, w: nat) {
    match instr
    case Do(Wake(cv), _) =>
      forall j :: 0 <= j < |s.threads| && SleepsOn(c, j, s.threads[j], cv) ==>
        w < |s.threads| && SleepsOn(c, w, s.threads[w], cv)
    case _ => true
  }

  /** A running thread `i` executes its instruction. */
  ghost predicate Exec(c: Config, s: State, i: nat, g: Point, w: nat, s': State)
    requires Shape(c, s) && i < |s.threads|
  {
    var instr := Instruction(c, i, s.threads[i].point);
    && Guard(c, s, i, g) && WakesOne(c, s, instr, w)
    && s'.data == (if instr.Do? then DataAfter(c, s, i, instr.op) else s.data)
    && |s'.threads| == |s.threads|
    && s'.threads[i] == ThreadAfter(c, s, i, g)
    && forall j :: 0 <= j < |s.threads| && j != i ==>
        s'.threads[j] == Roused(c, instr, w, j, s.threads[j])
  }

  /** A woken thread gets its critical section back and goes on after its sleep. */
  ghost predicate Resume(c: Config, s: State, i: nat, s': State)
    requires Shape(c, s) && i < |s.threads|
  {
    match Instruction(c, i, s.threads[i].point)
    case Do(Sleep(_, l), next) =>
      Free(s, i, l) && s' == s.(threads := s.threads[i := s.threads[i].(
        point := next, status := Running, held := s.threads[i].held + [l])])
    case _ => false
  }

  /** One step of thread `i`, in any status; a sleeper may be woken spuriously. */
  ghost predicate Step(c: Config, s: State, i: nat, g: Point, w: nat, s': State)
    requires Shape(c, s) && i < |s.threads|
  {
    match s.threads[i].status
    case Asleep => s' == s.(threads := s.threads[i := s.threads[i].(status := Woken)])
    case Woken => Resume(c, s, i, s')
    case Running => Exec(c, s, i, g, w, s')
  }

  ghost predicate Next(c: Config, s: State, s': State) {
    Shape(c, s) && exists i, g, w :: 0 <= i < |s.threads| && 0 <= w && Step(c, s, i, g, w, s')
  }

  /** A run: any interleaving of the threads' steps from an initial state. */
  ghost predicate IsRun(c: Config, run: seq<State>) {
    && 0 < |run|
    && Init(c, run[0])
    && forall k :: 0 <= k < |run| - 1 ==> Next(c, run[k], run[k + 1])
  }

  ghost predicate Reachable(c: Config, s: State) {
    exists run :: IsRun(c, run) && run[|run| - 1] == s
  }
}
