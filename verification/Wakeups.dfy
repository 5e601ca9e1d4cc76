/** No wakeup is lost: a thread that sleeps has nothing to do, or somebody is about to wake it. */
module Wakeups {
  import opened Program
  import opened Discipline
  import opened Machine
  import opened Locking
  import opened Knowledge

  /** The sum of `f` over the threads. */
  ghost function Tally(f: (nat, Thread) -> nat, ts: seq<Thread>): nat {
    if ts == [] then 0 else Tally(f, ts[..|ts| - 1]) + f(|ts| - 1, ts[|ts| - 1])
  }

  lemma {:induction false} TallyUpdate(f: (nat, Thread) -> nat, ts: seq<Thread>, i: nat, th: Thread)
    requires i < |ts|
    ensures Tally(f, ts[i := th]) + f(i, ts[i]) == Tally(f, ts) + f(i, th)
  {
    var k := |ts| - 1;
    if i == k {
      assert ts[i := th][..k] == ts[..k];
    } else {
      assert ts[i := th][..k] == ts[..k][i := th];
      TallyUpdate(f, ts[..k], i, th);
    }
  }

  /** Thread `j` sleeps at `p` and has not been woken. */
  ghost predicate AsleepAt(th: Thread, p: Point) {
    th.status == Asleep && th.point == p
  }

  /** The point of the only sleep on `cv`, and the only thread that sleeps there. */
  lemma SleepPoint(c: Config, j: nat, th: Thread)
    requires Fits(c, j, th.point)
    ensures SleepsOn(c, j, th, EmptyCv) <==> AsleepAt(th, Ring(RingWait))
    ensures SleepsOn(c, j, th, FillCv) <==> AsleepAt(th, Fetch(FillWait))
    ensures SleepsOn(c, j, th, ShutCv) <==> AsleepAt(th, Halting(AwaitWait))
    ensures forall t :: SleepsOn(c, j, th, QueueCv(t)) <==> j == t && AsleepAt(th, Queue(QueueWait))
  {
  }

  /** A thread on its way from a wakeup on `EmptyCv`, or from entering the buffer, to its `put`;
      and the consumer between a `get` and the wakeup it owes for it. */
  function Credit(th: Thread): nat {
    match th.point
    case Ring(at) =>
      if at == RingEnter || at == RingWake || at == RingLeave || at == RingDrop then 0
      else if at == RingWait && th.status == Asleep then 0
      else 1
    case Fetch(at) => if at == TakenEnter || at == TakenRead || at == TakenWake then 1 else 0
    case _ => 0
  }

  ghost function Credits(): (nat, Thread) -> nat {
    (i, th) => Credit(th)
  }

  ghost predicate SomeAsleepAt(s: State, p: Point) {
    exists j :: 0 <= j < |s.threads| && AsleepAt(s.threads[j], p)
  }

  /** While a thread sleeps on a full buffer, the elements in the buffer and the threads that will
      fill or signal free slots make up the whole capacity. */
  ghost predicate EmptyOk(c: Config, s: State) {
    !s.data.flag && SomeAsleepAt(s, Ring(RingWait)) ==> s.data.ring.count + Tally(Credits(), s.threads) >= c.capacity
  }

  ghost predicate SomeRunsAt(s: State, p: Point) {
    exists j :: 0 <= j < |s.threads| && s.threads[j].status == Running && s.threads[j].point == p
  }

  /** The consumer sleeps only on an empty buffer, unless a thread is about to wake it. */
  ghost predicate FillOk(c: Config, s: State)
    requires Shape(c, s)
  {
    AsleepAt(s.threads[ConsumerThread(c)], Fetch(FillWait)) ==>
      s.data.ring.count == 0 || SomeRunsAt(s, Ring(RingWake))
  }

  /** A producer sleeps only on an empty queue, unless the main thread is about to wake it. */
  ghost predicate QueueOk(c: Config, s: State, t: nat)
    requires Shape(c, s) && t < c.topics
  {
    AsleepAt(s.threads[t], Queue(QueueWait)) ==>
      s.data.queues[t] == [] || s.threads[MainThread(c)].point == Serve(EnqueueWake(t))
  }

  ghost predicate NoLostWakeup(c: Config, s: State)
    requires Shape(c, s)
  {
    EmptyOk(c, s) && FillOk(c, s) && forall t :: 0 <= t < c.topics ==> QueueOk(c, s, t)
  }

  /** What a running thread's instruction does to the threads. */
  ghost predicate WakesIn(ts: seq<Thread>, ts': seq<Thread>, i: nat, w: nat)
    requires i < |ts| && |ts'| == |ts|
  {
    w < |ts| && w != i && ts' == ts[w := ts[w].(status := Woken)][i := ts'[i]]
  }

  lemma StepThreads(c: Config, s: State, i: nat, g: Point, w: nat, s': State)
    requires Shape(c, s) && i < |s.threads| && Step(c, s, i, g, w, s')
    ensures |s'.threads| == |s.threads|
    ensures
      var instr := Instruction(c, i, s.threads[i].point);
      if s.threads[i].status == Running && instr.Do? && instr.op.WakeAll? then true
      else if s.threads[i].status == Running && instr.Do? && instr.op.Wake?
              && (exists j :: 0 <= j < |s.threads| && SleepsOn(c, j, s.threads[j], instr.op.cv))
        then WakesIn(s.threads, s'.threads, i, w) && SleepsOn(c, w, s.threads[w], instr.op.cv)
      else s'.threads == s.threads[i := s'.threads[i]]
  {
    var instr := Instruction(c, i, s.threads[i].point);
    if s.threads[i].status == Running && instr.Do? && instr.op.Wake?
       && exists j :: 0 <= j < |s.threads| && SleepsOn(c, j, s.threads[j], instr.op.cv) {
      assert SleepsOn(c, w, s.threads[w], instr.op.cv);
      assert s'.threads == s.threads[w := s.threads[w].(status := Woken)][i := s'.threads[i]];
    } else if s.threads[i].status == Running && instr.Do? && instr.op.WakeAll? {
    } else {
      assert s'.threads == s.threads[i := s'.threads[i]];
    }
  }

  /** A step does not use up credit, except that the consumer signals, and that a thread goes to
      sleep on a full buffer. */
  lemma SelfCredit(c: Config, s: State, i: nat, g: Point, w: nat, s': State)
    requires AllPlaced(c, s) && FlagOk(c, s) && i < |s.threads| && Step(c, s, i, g, w, s') && !s'.data.flag
    requires Knows(c, s.data, i, s.threads[i])
    ensures Shape(c, s')
    ensures var th, th' := s.threads[i], s'.threads[i];
      || s'.data.ring.count + Credit(th') >= s.data.ring.count + Credit(th)
      || (th' == th.(status := Asleep, held := th'.held) && th'.point == Ring(RingWait) && s'.data.ring.count == c.capacity)
      || (th.status == Running && th.point == Fetch(TakenWake) && th'.point == Fetch(FillLeave) && s'.data.ring == s.data.ring)
  {
    StepFlag(c, s, i, g, w, s');
    assert Placed(c, s, i);
    StepBuffer(c, s, i, g, w, s');
    match s.threads[i].point
    case Ring(_) =>
    case Fetch(_) =>
    case _ =>
      StepEdge(c, s, i, g, w, s');
  }

  /** The tally after a step without `WakeAll`. */
  lemma StepTally(c: Config, s: State, i: nat, g: Point, w: nat, s': State)
    requires Shape(c, s) && i < |s.threads| && Step(c, s, i, g, w, s')
    requires s'.threads == s.threads[i := s'.threads[i]]
             || (|s'.threads| == |s.threads| && WakesIn(s.threads, s'.threads, i, w))
    ensures
      var woken := if s'.threads == s.threads[i := s'.threads[i]] then 0
                   else Credit(s.threads[w].(status := Woken)) - Credit(s.threads[w]);
      Tally(Credits(), s'.threads) + Credit(s.threads[i]) == Tally(Credits(), s.threads) + Credit(s'.threads[i]) + woken
  {
    if s'.threads == s.threads[i := s'.threads[i]] {
      TallyUpdate(Credits(), s.threads, i, s'.threads[i]);
    } else {
      var ts := s.threads[w := s.threads[w].(status := Woken)];
      TallyUpdate(Credits(), s.threads, w, s.threads[w].(status := Woken));
      TallyUpdate(Credits(), ts, i, s'.threads[i]);
    }
  }

  lemma WakeAllHalts(c: Config, i: nat, p: Point)
    requires Fits(c, i, p) && Instruction(c, i, p).Do? && Instruction(c, i, p).op.WakeAll?
    ensures i == MainThread(c) && PastFlag(p)
  {
  }

  /** While thread `j` sleeps on the full buffer, the tally moves with the stepping thread's own
      credit, and the consumer's signal passes its credit on. */
  lemma TallyPassesOn(c: Config, s: State, i: nat, g: Point, w: nat, s': State, j: nat)
    requires AllPlaced(c, s) && FlagOk(c, s) && i < |s.threads| && Step(c, s, i, g, w, s') && !s'.data.flag
    requires j < |s.threads| && AsleepAt(s.threads[j], Ring(RingWait))
    ensures |s'.threads| == |s.threads|
    ensures
      var signal := if s.threads[i].status == Running && s.threads[i].point == Fetch(TakenWake) then 1 else 0;
      Tally(Credits(), s'.threads) + Credit(s.threads[i]) >= Tally(Credits(), s.threads) + Credit(s'.threads[i]) + signal
  {
    NoWakeAll(c, s, i, g, w, s');
    StepThreads(c, s, i, g, w, s');
    StepTally(c, s, i, g, w, s');
    if s.threads[i].status == Running && s.threads[i].point == Fetch(TakenWake) {
      SignalHeard(c, s, i, g, w, s', j);
    }
    if s'.threads != s.threads[i := s'.threads[i]] {
      SleeperCredit(c, s, w);
      assert Credit(s.threads[w].(status := Woken)) >= Credit(s.threads[w]);
      SignalWakesCredit(c, s, i, w);
    }
  }

  /** Before the flag is set nobody wakes all sleepers. */
  lemma NoWakeAll(c: Config, s: State, i: nat, g: Point, w: nat, s': State)
    requires AllPlaced(c, s) && FlagOk(c, s) && i < |s.threads| && Step(c, s, i, g, w, s') && !s'.data.flag
    ensures
      var instr := Instruction(c, i, s.threads[i].point);
      !(s.threads[i].status == Running && instr.Do? && instr.op.WakeAll?)
  {
    assert Placed(c, s, i);
    StepFlag(c, s, i, g, w, s');
    var instr := Instruction(c, i, s.threads[i].point);
    if s.threads[i].status == Running && instr.Do? && instr.op.WakeAll? {
      WakeAllHalts(c, i, s.threads[i].point);
    }
  }

  /** Waking a sleeper does not lower its credit. */
  lemma SleeperCredit(c: Config, s: State, w: nat)
    requires w < |s.threads|
    ensures Credit(s.threads[w].(status := Woken)) >= Credit(s.threads[w])
  {
  }

  lemma TakenWakePoint(c: Config, i: nat, p: Point)
    requires p == Fetch(TakenWake)
    ensures Instruction(c, i, p) == Do(Wake(EmptyCv), Fetch(FillLeave))
  {
  }

  /** The consumer's signal wakes a thread that sleeps on the full buffer, if there is one. */
  lemma SignalHeard(c: Config, s: State, i: nat, g: Point, w: nat, s': State, j: nat)
    requires AllPlaced(c, s) && i < |s.threads| && Step(c, s, i, g, w, s')
    requires s.threads[i].status == Running && s.threads[i].point == Fetch(TakenWake)
    requires j < |s.threads| && AsleepAt(s.threads[j], Ring(RingWait))
    ensures |s'.threads| == |s.threads| && w < |s.threads| && w != i
    ensures s.threads[w].status == Asleep && s'.threads[w].status == Woken
  {
    TakenWakePoint(c, i, s.threads[i].point);
    assert Placed(c, s, j);
    SleepPoint(c, j, s.threads[j]);
    StepThreads(c, s, i, g, w, s');
  }

  lemma SignalWakesCredit(c: Config, s: State, i: nat, w: nat)
    requires AllPlaced(c, s) && i < |s.threads| && w < |s.threads|
    requires s.threads[i].status == Running && s.threads[i].point == Fetch(TakenWake) ==> SleepsOn(c, w, s.threads[w], EmptyCv)
    ensures s.threads[i].status == Running && s.threads[i].point == Fetch(TakenWake) ==>
      Credit(s.threads[w].(status := Woken)) == Credit(s.threads[w]) + 1
  {
    assert Placed(c, s, w);
    SleepPoint(c, w, s.threads[w]);
  }

  lemma StepEmpty(c: Config, s: State, i: nat, g: Point, w: nat, s': State)
    requires Safe(c, s) && EmptyOk(c, s) && i < |s.threads| && Step(c, s, i, g, w, s')
    ensures EmptyOk(c, s')
  {
    if !s'.data.flag && SomeAsleepAt(s', Ring(RingWait)) {
      StepMoves(c, s, i, g, w, s');
      if AsleepAt(s'.threads[i], Ring(RingWait)) {
        GoesToSleep(c, s, i, g, w, s');
      } else {
        var j :| 0 <= j < |s'.threads| && AsleepAt(s'.threads[j], Ring(RingWait));
        assert AsleepAt(s.threads[j], Ring(RingWait));
        StepFlag(c, s, i, g, w, s');
        assert Knows(c, s.data, i, s.threads[i]);
        SelfCredit(c, s, i, g, w, s');
        TallyPassesOn(c, s, i, g, w, s', j);
      }
    }
  }

  /** A thread goes to sleep on a full buffer. */
  lemma GoesToSleep(c: Config, s: State, i: nat, g: Point, w: nat, s': State)
    requires Safe(c, s) && i < |s.threads| && Step(c, s, i, g, w, s')
    requires |s'.threads| == |s.threads| && AsleepAt(s'.threads[i], Ring(RingWait))
    ensures s'.data.ring.count == c.capacity
  {
    assert Placed(c, s, i) && Knows(c, s.data, i, s.threads[i]);
    StepEdge(c, s, i, g, w, s');
  }

  lemma WakeFillPoint(c: Config, i: nat, p: Point)
    requires Fits(c, i, p) && p == Ring(RingWake)
    ensures Instruction(c, i, p) == Do(Wake(FillCv), Ring(RingLeave))
  {
  }

  lemma StepFill(c: Config, s: State, i: nat, g: Point, w: nat, s': State)
    requires Safe(c, s) && FillOk(c, s) && i < |s.threads| && Step(c, s, i, g, w, s')
    ensures Shape(c, s') && FillOk(c, s')
  {
    StepPlaces(c, s, i, g, w, s');
    StepMoves(c, s, i, g, w, s');
    var k := ConsumerThread(c);
    assert Placed(c, s, i) && Placed(c, s, k);
    if AsleepAt(s'.threads[k], Fetch(FillWait)) {
      if i == k {
        FillsSleep(c, s, i, g, w, s');
      } else {
        FillStays(c, s, i, g, w, s');
      }
    }
  }

  /** While the consumer sleeps, a `put` is followed by a signal. */
  lemma FillStays(c: Config, s: State, i: nat, g: Point, w: nat, s': State)
    requires AllPlaced(c, s) && FillOk(c, s) && i < |s.threads| && Step(c, s, i, g, w, s') && i != ConsumerThread(c)
    requires Shape(c, s') && AsleepAt(s'.threads[ConsumerThread(c)], Fetch(FillWait))
    ensures s'.data.ring.count == 0 || SomeRunsAt(s', Ring(RingWake))
  {
    var k := ConsumerThread(c);
    StepMoves(c, s, i, g, w, s');
    assert AsleepAt(s.threads[k], Fetch(FillWait));
    assert Placed(c, s, i);
    StepBuffer(c, s, i, g, w, s');
    if s.threads[i].point == Ring(RingPut) && s.threads[i].status == Running {
      StepEdge(c, s, i, g, w, s');
      assert s'.threads[i].status == Running && s'.threads[i].point == Ring(RingWake);
    } else if SomeRunsAt(s, Ring(RingWake)) {
      var j :| 0 <= j < |s.threads| && s.threads[j].status == Running && s.threads[j].point == Ring(RingWake);
      if j == i {
        FillSignalled(c, s, i, g, w, s');
      }
      assert s'.threads[j] == s.threads[j];
    }
  }

  lemma FillSignalled(c: Config, s: State, i: nat, g: Point, w: nat, s': State)
    requires AllPlaced(c, s) && i < |s.threads| && Step(c, s, i, g, w, s') && i != ConsumerThread(c)
    requires s.threads[i].status == Running && s.threads[i].point == Ring(RingWake)
    requires AsleepAt(s.threads[ConsumerThread(c)], Fetch(FillWait))
    ensures |s'.threads| == |s.threads| && s'.threads[ConsumerThread(c)].status == Woken
  {
    var k := ConsumerThread(c);
    assert Placed(c, s, i) && Placed(c, s, k);
    SleepPoint(c, k, s.threads[k]);
    WakeFillPoint(c, i, s.threads[i].point);
    OnlySleeper(c, s, i, g, w, s', k, FillCv);
  }

  lemma FillsSleep(c: Config, s: State, i: nat, g: Point, w: nat, s': State)
    requires Safe(c, s) && i < |s.threads| && Step(c, s, i, g, w, s')
    requires |s'.threads| == |s.threads| && AsleepAt(s'.threads[i], Fetch(FillWait))
    ensures s'.data.ring.count == 0
  {
    assert Placed(c, s, i) && Knows(c, s.data, i, s.threads[i]);
    StepEdge(c, s, i, g, w, s');
  }

  /** A `Wake` on the condition variable of a single sleeper wakes it. */
  lemma OnlySleeper(c: Config, s: State, i: nat, g: Point, w: nat, s': State, k: nat, cv: CondVar)
    requires AllPlaced(c, s) && i < |s.threads| && Step(c, s, i, g, w, s')
    requires s.threads[i].status == Running && Instruction(c, i, s.threads[i].point).Do?
    requires Instruction(c, i, s.threads[i].point).op == Wake(cv) && cv != EmptyCv
    requires k < |s.threads| && k != i && SleepsOn(c, k, s.threads[k], cv)
    ensures |s'.threads| == |s.threads| && s'.threads[k].status == Woken
  {
    assert SleepsOn(c, w, s.threads[w], cv);
    assert Placed(c, s, k) && Placed(c, s, w);
    SleepPoint(c, k, s.threads[k]);
    SleepPoint(c, w, s.threads[w]);
  }

  lemma StepQueue(c: Config, s: State, i: nat, g: Point, w: nat, s': State, t: nat)
    requires Safe(c, s) && t < c.topics && QueueOk(c, s, t) && i < |s.threads| && Step(c, s, i, g, w, s')
    ensures Shape(c, s') && QueueOk(c, s', t)
  {
    StepPlaces(c, s, i, g, w, s');
    StepMoves(c, s, i, g, w, s');
    assert Placed(c, s, i) && Placed(c, s, t);
    if AsleepAt(s'.threads[t], Queue(QueueWait)) {
      if i == t {
        QueueSleep(c, s, i, g, w, s');
      } else {
        assert AsleepAt(s.threads[t], Queue(QueueWait));
        SleepPoint(c, t, s.threads[t]);
        StepQueued(c, s, i, g, w, s', t);
        if i == MainThread(c) && s.threads[i].point == Serve(EnqueueWake(t)) && s.threads[i].status == Running {
          OnlySleeper(c, s, i, g, w, s', t, QueueCv(t));
        }
      }
    }
  }

  lemma QueueSleep(c: Config, s: State, i: nat, g: Point, w: nat, s': State)
    requires Safe(c, s) && i < |s.threads| && Step(c, s, i, g, w, s') && i < c.topics
    requires |s'.threads| == |s.threads| && AsleepAt(s'.threads[i], Queue(QueueWait))
    ensures Shape(c, s') && s'.data.queues[i] == []
  {
    StepPlaces(c, s, i, g, w, s');
    assert Placed(c, s, i) && Knows(c, s.data, i, s.threads[i]);
    StepEdge(c, s, i, g, w, s');
  }

  /** A queue changes when its producer takes from it or the main thread adds to it. */
  lemma StepQueued(c: Config, s: State, i: nat, g: Point, w: nat, s': State, t: nat)
    requires AllPlaced(c, s) && i < |s.threads| && Step(c, s, i, g, w, s') && t < c.topics && i != t
    ensures Shape(c, s')
    ensures s'.data.queues[t] == s.data.queues[t]
            || (i == MainThread(c) && s'.threads[i].point == Serve(EnqueueWake(t)))
  {
    StepPlaces(c, s, i, g, w, s');
    assert Placed(c, s, i);
    HandOps(c, i, s.threads[i].point);
    EnqueuePoint(c, i, s.threads[i].point);
  }

  lemma EnqueuePoint(c: Config, i: nat, p: Point)
    requires Fits(c, i, p)
    ensures
      match Instruction(c, i, p)
      case Do(Enqueue(t, _), next) => i == MainThread(c) && next == Serve(EnqueueWake(t))
      case _ => true
  {
  }

  lemma StepNoLostWakeup(c: Config, s: State, i: nat, g: Point, w: nat, s': State)
    requires Safe(c, s) && NoLostWakeup(c, s) && i < |s.threads| && Step(c, s, i, g, w, s')
    ensures Shape(c, s') && NoLostWakeup(c, s')
  {
    StepEmpty(c, s, i, g, w, s');
    StepFill(c, s, i, g, w, s');
    forall t | 0 <= t < c.topics ensures QueueOk(c, s', t) {
      StepQueue(c, s, i, g, w, s', t);
    }
  }

  lemma InitNoLostWakeup(c: Config, s: State)
    requires Sane(c) && Init(c, s)
    ensures NoLostWakeup(c, s)
  {
    forall i | 0 <= i < |s.threads| ensures s.threads[i].status == Running {
      assert InitialThread(c, i, s.threads[i]);
    }
  }
}
