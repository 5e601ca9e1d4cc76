/** What the consumer does for each element it delivers: a response takes one send, a message one send
    for every node that the walk over its topic's list comes to. */
module Transmission {
  import opened Options
  import opened Program
  import opened Discipline
  import opened Machine
  import opened Locking
  import opened Knowledge
  import opened Flow
  import opened Pipeline

  /** What the consumer has done since its last `get`: the list whose walk it began, with the number of
      nodes found there, and the calls of `send`. */
  datatype Effort = Effort(walk: Option<(nat, nat)>, sends: nat)

  const NONE: Effort := Effort(None, 0)

  ghost predicate Shapes(c: Config, run: seq<State>) {
    forall k :: 0 <= k < |run| ==> Shape(c, run[k])
  }

  lemma RunShapes(c: Config, run: seq<State>)
    requires Sane(c) && IsRun(c, run)
    ensures Shapes(c, run)
  {
    forall k | 0 <= k < |run| ensures Shape(c, run[k]) {
      RunInv(c, run, k);
    }
  }

  /** The effort after the consumer has gone from `p` to `q`. */
  function Adds(e: Effort, p: Point, q: Point): Effort {
    if p == q then e
    else
      match p
      case Fetch(at) => if at == FillTake then NONE else e
      case Sending(_, at) =>
        (match at
         case WalkBegin(t) => if q.Sending? && q.send.WalkAt? then e.(walk := Some((q.send.topic, q.send.left))) else e
         case Send(_) => e.(sends := e.sends + 1)
         case _ => e)
      case _ => e
  }

  /** The effort in state `n` of a run. */
  ghost function Spent(c: Config, run: seq<State>, n: nat): Effort
    requires Shapes(c, run) && n < |run|
  {
    if n == 0 then NONE
    else Adds(Spent(c, run, n - 1), Consumer(c, run[n - 1]).point, Consumer(c, run[n]).point)
  }

  /** The effort fits the route: `here` sends are still to come, this one included. */
  predicate OnRoute(e: Effort, target: Target, r: Route, here: nat) {
    match r
    case Single => target.Connection? && e.walk == None && e.sends + here == 1
    case Walk(t, left) => target == Subscribers(t) && e.walk == Some((t, e.sends + here + left))
  }

  /** The effort at a point of the send, for an element with this target. */
  predicate Fitting(e: Effort, target: Target, p: SendPoint) {
    match p
    case SendStart => e == NONE
    case Announce(t) => e == NONE && target == Subscribers(t)
    case Announced(t) => e == NONE && target == Subscribers(t)
    case WalkStart(t) => e == NONE && target == Subscribers(t)
    case WalkBegin(t) => e == NONE && target == Subscribers(t)
    case WalkEnter(t, left) => OnRoute(e, target, Walk(t, left), 0)
    case WalkAt(t, left) => OnRoute(e, target, Walk(t, left), 0)
    case Poll(r) => OnRoute(e, target, r, 1)
    case PollError(r) => OnRoute(e, target, r, 1)
    case PollErrorLeave(r) => OnRoute(e, target, r, 1)
    case Send(r) => OnRoute(e, target, r, 1)
    case SendError(r) => OnRoute(e, target, r, 0)
    case SendErrorLeave(r) => OnRoute(e, target, r, 0)
    case Delivered =>
      if target.Subscribers? then e.walk == Some((target.topic, e.sends)) else e == Effort(None, 1)
  }

  ghost predicate EffortOk(e: Effort, th: Thread) {
    match th.point
    case Fetch(at) => at == TakenEnter || at == TakenRead || at == TakenWake || at == FillLeave ==> e == NONE
    case Sending(_, at) => th.hand.Some? && Fitting(e, th.hand.value.target, at)
    case _ => true
  }

  lemma SendFits(c: Config, final: bool, p: SendPoint, q: Point, target: Target, e: Effort)
    requires Edge(c, ConsumerThread(c), Sending(final, p), q) && Fitting(e, target, p) && p != Delivered
    requires p == SendStart ==> q.Sending? && q.send == if target.Subscribers? then Announce(target.topic) else Poll(Single)
    ensures q.Sending? && q != Sending(final, p) && Fitting(Adds(e, Sending(final, p), q), target, q.send)
  {
  }

  lemma FetchFits(c: Config, p: FetchPoint, q: Point, e: Effort)
    requires Edge(c, ConsumerThread(c), Fetch(p), q)
    requires p == TakenEnter || p == TakenRead || p == TakenWake || p == FillLeave ==> e == NONE
    ensures q.Fetch? && (q.fetch == TakenEnter || q.fetch == TakenRead || q.fetch == TakenWake || q.fetch == FillLeave) ==>
      Adds(e, Fetch(p), q) == NONE
    ensures q.Sending? ==> q.send == SendStart && Adds(e, Fetch(p), q) == NONE
  {
  }

  /** The hand stays during a send. */
  lemma SendKeepsHand(c: Config, final: bool, p: SendPoint)
    requires p != Delivered
    ensures
      var instr := Instruction(c, ConsumerThread(c), Sending(final, p));
      instr == Jump || (instr.Do? && (instr.op.Enter? || instr.op.Leave?))
  {
  }

  lemma SendStep(c: Config, s: State, g: Point, w: nat, s': State, e: Effort)
    requires AllPlaced(c, s) && Step(c, s, ConsumerThread(c), g, w, s') && Shape(c, s')
    requires Consumer(c, s).point.Sending? && Consumer(c, s).point.send != Delivered
    requires EffortOk(e, Consumer(c, s))
    ensures EffortOk(Adds(e, Consumer(c, s).point, Consumer(c, s').point), Consumer(c, s'))
  {
    var k := ConsumerThread(c);
    assert Placed(c, s, k);
    var p := s.threads[k].point;
    SendKeepsHand(c, p.final, p.send);
    StepEdge(c, s, k, g, w, s');
    SendFits(c, p.final, p.send, s'.threads[k].point, s.threads[k].hand.value.target, e);
  }

  lemma OtherStep(c: Config, s: State, g: Point, w: nat, s': State, e: Effort)
    requires AllPlaced(c, s) && AllPlaced(c, s') && HandsOk(c, s') && Step(c, s, ConsumerThread(c), g, w, s')
    requires !Consumer(c, s).point.Sending? || Consumer(c, s).point.send == Delivered
    requires EffortOk(e, Consumer(c, s))
    ensures EffortOk(Adds(e, Consumer(c, s).point, Consumer(c, s').point), Consumer(c, s'))
  {
    var k := ConsumerThread(c);
    assert Placed(c, s, k) && Placed(c, s', k) && HandOk(c, s'.data.flag, k, s'.threads[k]);
    StepEdge(c, s, k, g, w, s');
    if s.threads[k].status != Asleep && s.threads[k].point.Fetch? {
      FetchFits(c, s.threads[k].point.fetch, s'.threads[k].point, e);
    } else if s.threads[k].status != Asleep {
      QuitFits(c, s.threads[k].point, s'.threads[k].point);
    }
  }

  lemma QuitFits(c: Config, p: Point, q: Point)
    requires Fits(c, ConsumerThread(c), p) && Edge(c, ConsumerThread(c), p, q) && !p.Fetch?
    requires !p.Sending? || p.send == Delivered
    ensures !q.Sending? && (q.Fetch? ==> q.fetch == FinalLeave || q.fetch == FetchEnter)
  {
  }

  lemma {:induction false} EffortAlong(c: Config, run: seq<State>, n: nat)
    requires Sane(c) && IsRun(c, run) && Shapes(c, run) && n < |run|
    ensures EffortOk(Spent(c, run, n), Consumer(c, run[n]))
  {
    RunInv(c, run, n);
    if n == 0 {
      assert InitialThread(c, ConsumerThread(c), run[0].threads[ConsumerThread(c)]);
    } else {
      EffortAlong(c, run, n - 1);
      RunInv(c, run, n - 1);
      assert Next(c, run[n - 1], run[n - 1 + 1]);
      EffortStep(c, run[n - 1], run[n], Spent(c, run, n - 1));
    }
  }

  lemma EffortStep(c: Config, s: State, s': State, e: Effort)
    requires Safe(c, s) && Safe(c, s') && Next(c, s, s') && EffortOk(e, Consumer(c, s))
    ensures EffortOk(Adds(e, Consumer(c, s).point, Consumer(c, s').point), Consumer(c, s'))
  {
    var i, g, w :| 0 <= i < |s.threads| && 0 <= w && Step(c, s, i, g, w, s');
    if i != ConsumerThread(c) {
      StepMoves(c, s, i, g, w, s');
    } else if Consumer(c, s).point.Sending? && Consumer(c, s).point.send != Delivered {
      SendStep(c, s, g, w, s', e);
    } else {
      OtherStep(c, s, g, w, s', e);
    }
  }

  /** Over every run: when the consumer has done with an element, it has called `send` once for a
      response, and for a message of a topic as often as the walk over that topic's list had nodes to
      come to when it began, all since the `get` of the element. */
  lemma DeliveredAfterSends(c: Config, run: seq<State>, n: nat)
    requires Sane(c) && IsRun(c, run) && Shapes(c, run) && n < |run|
    requires Consumer(c, run[n]).point.Sending? && Consumer(c, run[n]).point.send == Delivered
    ensures Consumer(c, run[n]).hand.Some?
    ensures
      var target, e := Consumer(c, run[n]).hand.value.target, Spent(c, run, n);
      match target
      case Connection(_) => e.walk == None && e.sends == 1
      case Subscribers(t) => e.walk == Some((t, e.sends))
  {
    EffortAlong(c, run, n);
  }

  /** Only from there is an element counted as sent. */
  lemma SentOnlyWhenDelivered(c: Config, s: State, i: nat, g: Point, w: nat, s': State)
    requires Sane(c) && Reachable(c, s) && Shape(c, s) && i < |s.threads| && Step(c, s, i, g, w, s')
    requires s'.data.sent != s.data.sent
    ensures i == ConsumerThread(c) && s.threads[i].point.Sending? && s.threads[i].point.send == Delivered
    ensures s.threads[i].hand.Some? && s'.data.sent == s.data.sent + [s.threads[i].hand.value]
  {
    ReachableInv(c, s);
    assert Placed(c, s, i);
    DeliverPoint(c, i, s.threads[i].point);
  }

  lemma DeliverPoint(c: Config, i: nat, p: Point)
    requires Fits(c, i, p) && Instruction(c, i, p).Do? && Instruction(c, i, p).op == Deliver
    ensures i == ConsumerThread(c) && p.Sending? && p.send == Delivered
  {
  }
}
