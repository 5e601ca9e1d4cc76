/** The main results about the broker's threads, each over every reachable state: every
    interleaving, every choice of started threads, every number of topics and buffer capacity. */
module Pipeline {
  import opened Options
  import opened Program
  import opened Discipline
  import opened Machine
  import opened Locking
  import opened Knowledge
  import opened Flow
  import opened Wakeups
  import opened Shutdown
  import opened Deadlock
  import opened Drain
  import opened Closing
  import R = Ring

  ghost predicate Inv(c: Config, s: State) {
    && Safe(c, s) && Flows(c, s) && NoLostWakeup(c, s)
    && SignalsOk(c, s) && NoneMissed(c, s) && AllDoneOk(c, s) && NoPuts(c, s) && NoneLeaves(c, s)
  }

  lemma InitInv(c: Config, s: State)
    requires Sane(c) && Init(c, s)
    ensures Inv(c, s)
  {
    InitFlows(c, s);
    InitNoLostWakeup(c, s);
    InitShutdown(c, s);
    InitNoneLeaves(c, s);
  }

  lemma InitNoneLeaves(c: Config, s: State)
    requires Init(c, s)
    ensures NoneLeaves(c, s)
  {
    forall i | 0 <= i < |s.threads| ensures !Leaving(s.threads[i].point) {
      assert InitialThread(c, i, s.threads[i]);
    }
  }

  lemma NextInv(c: Config, s: State, s': State)
    requires Inv(c, s) && Next(c, s, s')
    ensures Inv(c, s')
  {
    var i, g, w :| 0 <= i < |s.threads| && 0 <= w && Step(c, s, i, g, w, s');
    StepFlows(c, s, i, g, w, s');
    StepNoLostWakeup(c, s, i, g, w, s');
    StepSignals(c, s, i, g, w, s');
    StepNoneMissed(c, s, i, g, w, s');
    StepAllDone(c, s, i, g, w, s');
    StepNoPuts(c, s, i, g, w, s');
    StepNoneLeaves(c, s, i, g, w, s');
  }

  /** The invariant holds in every state of every run. */
  lemma {:induction false} RunInv(c: Config, run: seq<State>, k: nat)
    requires Sane(c) && IsRun(c, run) && k < |run|
    ensures Inv(c, run[k])
  {
    if k == 0 {
      InitInv(c, run[0]);
    } else {
      RunInv(c, run, k - 1);
      assert Next(c, run[k - 1], run[k - 1 + 1]);
      NextInv(c, run[k - 1], run[k]);
    }
  }

  lemma ReachableInv(c: Config, s: State)
    requires Sane(c) && Reachable(c, s)
    ensures Inv(c, s)
  {
    var run :| IsRun(c, run) && run[|run| - 1] == s;
    RunInv(c, run, |run| - 1);
  }

  lemma ReachNext(c: Config, s: State, i: nat, g: Point, w: nat, s': State)
    requires Reachable(c, s) && Shape(c, s) && i < |s.threads| && Step(c, s, i, g, w, s')
    ensures Reachable(c, s')
  {
    var run :| IsRun(c, run) && run[|run| - 1] == s;
    var more := run + [s'];
    forall k | 0 <= k < |more| - 1 ensures Next(c, more[k], more[k + 1]) {
      if k < |run| - 1 {
        assert Next(c, run[k], run[k + 1]);
      }
    }
    assert IsRun(c, more) && more[|more| - 1] == s';
  }

  /** Steps one after the other. */
  ghost predicate IsPath(c: Config, path: seq<State>) {
    0 < |path| && forall k :: 0 <= k < |path| - 1 ==> Next(c, path[k], path[k + 1])
  }

  /** Until the flag is set, each stream of published elements is exactly what was sent, what the
      consumer carries, what the buffer holds, what the stream's own thread carries, and what is
      queued, in this order: nothing is lost, duplicated or reordered. */
  lemma InOrderDelivery(c: Config, s: State, x: nat)
    requires Sane(c) && Reachable(c, s) && x <= c.topics
    ensures Shape(c, s)
    ensures !s.data.flag ==>
      && R.Coherent(s.data.ring)
      && s.data.published[x] ==
         Of(c, s.data.sent, x) + Of(c, Carried(Consumer(c, s).hand), x) + Of(c, R.Contents(s.data.ring), x)
         + Carried(s.threads[x].hand) + Backlog(c, s.data, x)
  {
    ReachableInv(c, s);
    if !s.data.flag {
      FlowsUnflagged(c, s, x);
    }
  }

  lemma FlowsUnflagged(c: Config, s: State, x: nat)
    requires Shape(c, s) && BufferOk(c, s) && HandsOk(c, s) && !s.data.flag && x <= c.topics
    requires StreamFlows(c, s, x) && DropsOk(c, s, x)
    ensures R.Coherent(s.data.ring)
    ensures s.data.published[x] ==
      Of(c, s.data.sent, x) + Of(c, Carried(Consumer(c, s).hand), x) + Of(c, R.Contents(s.data.ring), x)
      + Carried(s.threads[x].hand) + Backlog(c, s.data, x)
  {
    CarriedIsReal(c, s, x);
    SplitUnderway(c, s, x);
    var a := Of(c, s.data.sent, x) + Of(c, Carried(Consumer(c, s).hand), x) + Of(c, R.Contents(s.data.ring), x)
             + Carried(s.threads[x].hand);
    assert a + [] == a;
  }

  lemma CarriedIsReal(c: Config, s: State, x: nat)
    requires Shape(c, s) && HandsOk(c, s) && !s.data.flag && x <= c.topics
    ensures Carried(s.threads[x].hand) == Real(s.threads[x].hand)
  {
    assert HandOk(c, s.data.flag, x, s.threads[x]);
  }

  lemma SplitUnderway(c: Config, s: State, x: nat)
    requires Shape(c, s) && BufferOk(c, s) && !s.data.stale && x <= c.topics && StreamFlows(c, s, x)
    ensures s.data.published[x] ==
      Of(c, s.data.sent, x) + Of(c, Carried(Consumer(c, s).hand), x) + Of(c, R.Contents(s.data.ring), x)
      + Real(s.threads[x].hand) + s.data.dropped[x] + Backlog(c, s.data, x)
  {
    assert Genuine(c, s) == s.data.sent;
    OfConcat(c, Carried(Consumer(c, s).hand), R.Contents(s.data.ring), x);
    var a, b, d := Of(c, s.data.sent, x), Of(c, Carried(Consumer(c, s).hand), x), Of(c, R.Contents(s.data.ring), x);
    assert a + (b + d) == a + b + d;
  }

  /** At any time what was sent is genuine messages, of each stream a prefix of what was published,
      and at most one element after them, which is there exactly when the consumer's last `get` read
      an empty buffer and the consumer has sent what it read.  Between what was genuinely sent and
      what is still queued are the consumer's hand and the buffer, the hand of the stream's own
      thread, and at most one message, which that thread carried when it gave up. */
  lemma SentIsPrefix(c: Config, s: State, x: nat)
    requires Sane(c) && Reachable(c, s) && x <= c.topics
    ensures Shape(c, s) && (s.data.stale || R.Coherent(s.data.ring))
    ensures s.data.sent == Genuine(c, s) + Extra(c, s) && |Extra(c, s)| <= 1
    ensures Extra(c, s) != [] <==> s.data.stale && SentLast(Consumer(c, s).point)
    ensures Of(c, Genuine(c, s), x) <= s.data.published[x]
    ensures s.data.published[x] ==
      Of(c, Genuine(c, s), x) + Of(c, Underway(s.data, Consumer(c, s)), x)
      + Real(s.threads[x].hand) + s.data.dropped[x] + Backlog(c, s.data, x)
    ensures |s.data.dropped[x]| <= 1 && s.data.dropped[c.topics] == []
  {
    ReachableInv(c, s);
    FlowsAt(c, s, x);
    StreamIs(c, s, x);
    SplitSent(c, s);
  }

  lemma FlowsAt(c: Config, s: State, x: nat)
    requires Shape(c, s) && BufferOk(c, s) && Flows(c, s) && x <= c.topics
    ensures StreamFlows(c, s, x) && |s.data.dropped[x]| <= 1 && s.data.dropped[c.topics] == []
  {
    assert DropsOk(c, s, x) && DropsOk(c, s, c.topics);
  }

  lemma StreamIs(c: Config, s: State, x: nat)
    requires Shape(c, s) && BufferOk(c, s) && x <= c.topics && StreamFlows(c, s, x)
    ensures Of(c, Genuine(c, s), x) <= s.data.published[x]
    ensures s.data.published[x] ==
      Of(c, Genuine(c, s), x) + Of(c, Underway(s.data, Consumer(c, s)), x)
      + Real(s.threads[x].hand) + s.data.dropped[x] + Backlog(c, s.data, x)
  {
  }

  lemma SplitSent(c: Config, s: State)
    requires Shape(c, s) && ExtraOk(c, s)
    ensures s.data.sent == Genuine(c, s) + Extra(c, s) && |Extra(c, s)| <= 1
    ensures Extra(c, s) != [] <==> s.data.stale && SentLast(Consumer(c, s).point)
  {
  }

  /** From state `k` of a run to the next, the consumer's `get` reads an empty buffer. */
  ghost predicate EmptyGetAt(c: Config, run: seq<State>, k: nat) {
    && k + 1 < |run| && Shape(c, run[k]) && Shape(c, run[k + 1])
    && Consumer(c, run[k]).point == Fetch(FillTake) && Consumer(c, run[k + 1]).point == Fetch(TakenEnter)
    && run[k].data.ring.count == 0
  }

  /** What one step has to do with it. */
  lemma StaleStep(c: Config, run: seq<State>, k: nat)
    requires k + 1 < |run| && AllPlaced(c, run[k]) && Shape(c, run[k + 1]) && Next(c, run[k], run[k + 1])
    ensures run[k + 1].data.stale <==> run[k].data.stale || EmptyGetAt(c, run, k)
  {
    var s, s' := run[k], run[k + 1];
    var i, g, w :| 0 <= i < |s.threads| && 0 <= w && Step(c, s, i, g, w, s');
    assert Placed(c, s, i) && Placed(c, s, ConsumerThread(c));
    StepMoves(c, s, i, g, w, s');
    StepBuffer(c, s, i, g, w, s');
  }

  ghost predicate EmptyGetBefore(c: Config, run: seq<State>, n: nat) {
    exists k :: 0 <= k < n && EmptyGetAt(c, run, k)
  }

  lemma EmptyGetSnoc(c: Config, run: seq<State>, n: nat)
    ensures EmptyGetBefore(c, run, n + 1) <==> EmptyGetBefore(c, run, n) || EmptyGetAt(c, run, n)
  {
    if EmptyGetBefore(c, run, n + 1) {
      var k :| 0 <= k < n + 1 && EmptyGetAt(c, run, k);
      assert k == n || EmptyGetBefore(c, run, n);
    }
  }

  lemma StaleNext(c: Config, run: seq<State>, k: nat)
    requires Sane(c) && IsRun(c, run) && k + 1 < |run|
    ensures run[k + 1].data.stale <==> run[k].data.stale || EmptyGetAt(c, run, k)
  {
    RunInv(c, run, k);
    RunInv(c, run, k + 1);
    StaleStep(c, run, k);
  }

  lemma {:induction false} StaleIffEmptyGet(c: Config, run: seq<State>, n: nat)
    requires Sane(c) && IsRun(c, run) && n < |run|
    ensures run[n].data.stale <==> EmptyGetBefore(c, run, n)
  {
    if n > 0 {
      StaleIffEmptyGet(c, run, n - 1);
      StaleNext(c, run, n - 1);
      EmptyGetSnoc(c, run, n - 1);
    }
  }

  /** Over every run an element that nobody published is sent exactly when a `get` of the consumer has
      read an empty buffer and the consumer has sent what it read. */
  lemma ExtraIffEmptyGet(c: Config, run: seq<State>, n: nat)
    requires Sane(c) && IsRun(c, run) && n < |run|
    ensures Shape(c, run[n])
    ensures Extra(c, run[n]) != [] <==> EmptyGetBefore(c, run, n) && SentLast(Consumer(c, run[n]).point)
  {
    RunInv(c, run, n);
    StaleIffEmptyGet(c, run, n);
    SplitSent(c, run[n]);
  }

  /** `put` never runs on a full buffer or with a null message, whenever the flag is raised, and
      what the buffer holds and what was genuinely sent are real messages. */
  lemma PutHasRoom(c: Config, s: State, i: nat)
    requires Sane(c) && Reachable(c, s) && i < |s.threads|
    ensures Shape(c, s)
    ensures s.threads[i].point == Ring(RingPut) ==>
      0 <= s.data.ring.count < c.capacity && s.threads[i].hand.Some? && s.threads[i].hand.value.message.Some?
    ensures !s.data.stale ==> R.Coherent(s.data.ring) && NoNull(R.Contents(s.data.ring)) && NoNull(s.data.sent)
    ensures NoNull(Genuine(c, s))
  {
    ReachableInv(c, s);
    assert Placed(c, s, i) && Knows(c, s.data, i, s.threads[i]) && HandOk(c, s.data.flag, i, s.threads[i]);
    if !s.data.stale {
      var u := Carried(Consumer(c, s).hand) + R.Contents(s.data.ring);
      assert forall e :: e in R.Contents(s.data.ring) ==> e in u;
      SplitSent(c, s);
    }
  }

  /** The count leaves its bounds exactly when the consumer's last `get`, made because the flag is
      set, read an empty buffer; then it is -1, and it stays -1. */
  lemma CountBounds(c: Config, s: State)
    requires Sane(c) && Reachable(c, s)
    ensures Shape(c, s)
    ensures 0 <= s.data.ring.count <= c.capacity <==> !s.data.stale
    ensures s.data.stale ==> s.data.flag && s.data.ring.count == -1 && AfterLastGet(Consumer(c, s).point)
  {
    ReachableInv(c, s);
  }

  /** In particular the bounds hold in every state before shutdown, and a `get` breaks them exactly
      when it is reached with the buffer empty, which takes the flag. */
  lemma GetBreaksBounds(c: Config, s: State, g: Point, w: nat, s': State)
    requires Sane(c) && Reachable(c, s) && Shape(c, s)
    requires Consumer(c, s).point == Fetch(FillTake) && Step(c, s, ConsumerThread(c), g, w, s')
    ensures Shape(c, s')
    ensures 0 <= s'.data.ring.count <= c.capacity && R.Coherent(s'.data.ring) <==> 0 < s.data.ring.count
    ensures s'.data.stale <==> s.data.ring.count == 0
    ensures s.data.ring.count == 0 ==> s.data.flag
  {
    ReachableInv(c, s);
    assert Placed(c, s, ConsumerThread(c)) && Knows(c, s.data, ConsumerThread(c), Consumer(c, s));
    StepBuffer(c, s, ConsumerThread(c), g, w, s');
    StepKeepsBuffer(c, s, ConsumerThread(c), g, w, s');
  }

  /** Thread `i` sleeps and will not run until it is woken. */
  ghost predicate Sleeping(s: State, i: nat) {
    i < |s.threads| && s.threads[i].status == Asleep
  }

  function WokenAtRing(th: Thread): nat {
    if th.point == Ring(RingWait) && th.status == Woken then 1 else 0
  }

  ghost function WokenRing(): (nat, Thread) -> nat {
    (i, th) => WokenAtRing(th)
  }

  /** No wakeup is lost on the buffer.  Whenever its lock is free and the flag is clear: if a thread
      sleeps because the buffer is full, the elements in it and the woken threads that have not yet
      looked again fill it; and if the consumer sleeps, the buffer is empty. */
  lemma NoLostRingWakeup(c: Config, s: State)
    requires Sane(c) && Reachable(c, s) && !s.data.flag
    requires forall i :: 0 <= i < |s.threads| ==> RingLock !in s.threads[i].held
    ensures Shape(c, s)
    ensures SomeAsleepAt(s, Ring(RingWait)) ==> s.data.ring.count + Tally(WokenRing(), s.threads) >= c.capacity
    ensures AsleepAt(Consumer(c, s), Fetch(FillWait)) ==> s.data.ring.count == 0
  {
    ReachableInv(c, s);
    forall i | 0 <= i < |s.threads|
      ensures Credit(s.threads[i]) == WokenAtRing(s.threads[i])
      ensures !(s.threads[i].status == Running && s.threads[i].point == Ring(RingWake))
    {
      OutsideRing(c, s, i);
    }
    TallyEqual(s.threads);
  }

  /** A thread that does not hold the buffer is not about to wake another there. */
  lemma OutsideRing(c: Config, s: State, i: nat)
    requires AllPlaced(c, s) && i < |s.threads| && RingLock !in s.threads[i].held
    ensures Credit(s.threads[i]) == WokenAtRing(s.threads[i])
    ensures !(s.threads[i].status == Running && s.threads[i].point == Ring(RingWake))
  {
    assert Placed(c, s, i);
  }

  lemma {:induction false} TallyEqual(ts: seq<Thread>)
    requires forall i :: 0 <= i < |ts| ==> Credit(ts[i]) == WokenAtRing(ts[i])
    ensures Tally(Credits(), ts) == Tally(WokenRing(), ts)
  {
    if |ts| > 0 {
      TallyEqual(ts[..|ts| - 1]);
    }
  }

  /** Every producer and the consumer sleep, and the main thread sleeps or waits for events. */
  ghost predicate Quiescent(c: Config, s: State)
    requires Shape(c, s)
  {
    && (forall i :: 0 <= i < |s.threads| && i != MainThread(c) ==> Sleeping(s, i))
    && (Sleeping(s, MainThread(c)) || s.threads[MainThread(c)].point == Serve(Idle))
  }

  /** In a quiescent state the buffer is empty, and nobody sleeps on a full one. */
  lemma QuiescentRing(c: Config, s: State)
    requires Sane(c) && AllPlaced(c, s) && NoLostWakeup(c, s) && !s.data.flag && Quiescent(c, s)
    ensures s.data.ring.count == 0
    ensures !SomeAsleepAt(s, Ring(RingWait))
  {
    var k := ConsumerThread(c);
    assert Placed(c, s, k) && Placed(c, s, MainThread(c)) && Sleeping(s, k);
    assert AsleepAt(s.threads[k], Fetch(FillWait));
    forall j | 0 <= j < |s.threads|
      ensures Credit(s.threads[j]) == 0
      ensures !(s.threads[j].status == Running && s.threads[j].point == Ring(RingWake))
    {
      assert Placed(c, s, j) && (j != MainThread(c) ==> Sleeping(s, j));
    }
    TallyZero(Credits(), s.threads);
  }

  /** Then each thread is at its own wait for work, with nothing in hand. */
  lemma QuiescentThreads(c: Config, s: State, i: nat)
    requires Safe(c, s) && NoLostWakeup(c, s) && !s.data.flag && Quiescent(c, s) && i < |s.threads|
    ensures s.threads[i].hand == None
    ensures i == MainThread(c) ==> s.threads[i].point == Serve(Idle)
    ensures i < c.topics ==> AsleepAt(s.threads[i], Queue(QueueWait))
  {
    QuiescentRing(c, s);
    assert Placed(c, s, i) && HandOk(c, s.data.flag, i, s.threads[i]) && (i != MainThread(c) ==> Sleeping(s, i));
    assert !AsleepAt(s.threads[i], Ring(RingWait));
  }

  /** Quiescence means complete delivery: when nothing moves before shutdown, the buffer, all
      queues and all hands are empty, main waits for events, and everything published was sent. */
  lemma QuiescenceDelivers(c: Config, s: State, x: nat)
    requires Sane(c) && Reachable(c, s) && Shape(c, s) && !s.data.flag && Quiescent(c, s) && x <= c.topics
    ensures s.data.ring.count == 0 && s.threads[MainThread(c)].point == Serve(Idle)
    ensures Consumer(c, s).hand == None && s.threads[x].hand == None
    ensures x < c.topics ==> s.data.queues[x] == []
    ensures Of(c, s.data.sent, x) == s.data.published[x]
  {
    ReachableInv(c, s);
    QuiescentRing(c, s);
    QuiescentThreads(c, s, x);
    QuiescentThreads(c, s, MainThread(c));
    QuiescentThreads(c, s, ConsumerThread(c));
    assert x < c.topics ==> QueueOk(c, s, x);
    InOrderDelivery(c, s, x);
  }

  /** A thread that was started ends, or is on its way to its end, only after the flag is set. */
  lemma EndsOnlyAfterFlag(c: Config, s: State, i: nat)
    requires Sane(c) && Reachable(c, s) && i < |s.threads| && !s.data.flag
    ensures s.threads[i].point.Quit? ==> s.threads[i].point == Quit(Unstarted)
    ensures s.threads[i].point != Fetch(FinalLeave)
    ensures s.threads[i].point.Sending? ==> !s.threads[i].point.final
  {
    ReachableInv(c, s);
  }

  /** No thread can step by itself, but main can start on a new event. */
  ghost predicate AtRest(c: Config, s: State) {
    forall i :: 0 <= i < |s.threads| && CanStep(c, s, i) ==> i == MainThread(c) && s.threads[i].point == Serve(Idle)
  }

  /** A thread that is awake, and is not main waiting for an event, keeps the state from being at rest. */
  lemma AwakeMoves(c: Config, s: State, i: nat)
    requires Sane(c) && Reachable(c, s) && !s.data.flag && AllStarted(s) && AtRest(c, s)
    requires i < |s.threads| && s.threads[i].status != Asleep
    ensures i == MainThread(c) && s.threads[i].point == Serve(Idle)
  {
    ReachableInv(c, s);
    EndsOnlyAfterFlag(c, s, i);
    assert Placed(c, s, i) && Placed(c, s, MainThread(c));
    if Instruction(c, i, s.threads[i].point) == Stop {
      StopPoints(c, i, s.threads[i].point);
    } else {
      var j := NotStuck(c, s, i);
    }
  }

  lemma StopPoints(c: Config, i: nat, p: Point)
    requires Fits(c, i, p) && Instruction(c, i, p) == Stop
    ensures p == Quit(Unstarted) || p == Quit(Done) || p == Halting(Freed)
  {
  }

  /** Rest means complete delivery, with what a thread can do as the only test: before shutdown, with all
      threads started, when no thread can step by itself and main is not on its way to a shutdown, main
      waits for events, the buffer, all queues and all hands are empty, and everything published was
      sent. */
  lemma RestDelivers(c: Config, s: State, x: nat)
    requires Sane(c) && Reachable(c, s) && Shape(c, s) && !s.data.flag && AllStarted(s) && AtRest(c, s) && x <= c.topics
    ensures s.data.ring.count == 0 && s.threads[MainThread(c)].point == Serve(Idle)
    ensures Consumer(c, s).hand == None && s.threads[x].hand == None
    ensures x < c.topics ==> s.data.queues[x] == []
    ensures Of(c, s.data.sent, x) == s.data.published[x]
  {
    forall i | 0 <= i < |s.threads| && s.threads[i].status != Asleep
      ensures i == MainThread(c) && s.threads[i].point == Serve(Idle)
    {
      AwakeMoves(c, s, i);
    }
    assert Quiescent(c, s);
    QuiescenceDelivers(c, s, x);
  }

  /** Mutual exclusion, and no cycle of threads each waiting for the next one's critical section. */
  lemma NoWaitCycle(c: Config, s: State, chain: seq<nat>)
    requires Sane(c) && Reachable(c, s) && 2 <= |chain|
    requires forall k :: 0 <= k < |chain| - 1 ==> WaitsFor(c, s, chain[k], chain[k + 1])
    ensures chain[0] != chain[|chain| - 1]
    ensures Exclusive(s)
  {
    ReachableInv(c, s);
    NoCycle(c, s, chain);
  }

  /** A thread that is not asleep and has not ended can step, or some thread in a critical section
      can. */
  lemma NotStuck(c: Config, s: State, i: nat) returns (j: nat)
    requires Sane(c) && Reachable(c, s) && i < |s.threads| && s.threads[i].status != Asleep
    requires Instruction(c, i, s.threads[i].point) != Stop
    ensures CanStep(c, s, j) && (j == i || s.threads[j].held != [])
  {
    ReachableInv(c, s);
    if l :| Wants(c, s, i, l) && !Free(s, i, l) {
      j := HolderRuns(c, s, i, l);
    } else {
      j := i;
      Unblocked(c, s, i);
    }
  }

  /** Shutdown misses no sleeper: once main has done its wakes no producer and not the consumer
      sleeps, or is about to sleep, in any state from there on. */
  lemma NoSleeperMissed(c: Config, s: State, i: nat)
    requires Sane(c) && Reachable(c, s) && Shape(c, s) && PassedFill(s.threads[MainThread(c)].point)
    requires i < |s.threads| && i != MainThread(c)
    ensures s.threads[i].status != Asleep
    ensures s.threads[i].status == Running ==> !Sleeps(Instruction(c, i, s.threads[i].point))
  {
    ReachableInv(c, s);
    NeverAsleep(c, s, i);
  }

  /** From there on every step of such a thread brings it closer to its end.  In a stale state the
      consumer may be using what it read from an empty buffer, and nothing is claimed. */
  lemma EveryStepDrains(c: Config, s: State, i: nat, g: Point, w: nat, s': State)
    requires Sane(c) && Reachable(c, s) && Shape(c, s) && PassedFill(s.threads[MainThread(c)].point) && !s.data.stale
    requires i < |s.threads| && i != MainThread(c) && Step(c, s, i, g, w, s')
    ensures |s'.threads| == |s.threads| && Closer(s'.threads[i].point, s.threads[i].point)
  {
    ReachableInv(c, s);
    WorkerStepsCloser(c, s, i, g, w, s');
  }

  ghost predicate AllStarted(s: State) {
    forall i :: 0 <= i < |s.threads| ==> s.threads[i].point != Quit(Unstarted)
  }

  /** And the handshake never hangs: as long as main has not passed its wait, some thread can take a
      step of its own, given that all of them were started. */
  lemma HandshakeAdvances(c: Config, s: State) returns (j: nat)
    requires Sane(c) && Reachable(c, s) && Shape(c, s) && !s.data.stale
    requires PassedFill(s.threads[MainThread(c)].point) && s.threads[MainThread(c)].point != Halting(Freed)
    requires AllStarted(s)
    ensures CanStep(c, s, j)
  {
    ReachableInv(c, s);
    var m := MainThread(c);
    if i: nat :| i < |s.threads| && i != m && s.threads[i].point != Quit(Done) {
      WorkerLives(c, s, i);
      j := NotStuck(c, s, i);
    } else {
      MainLives(c, s);
      j := NotStuck(c, s, m);
    }
  }

  lemma WorkerLives(c: Config, s: State, i: nat)
    requires Safe(c, s) && NoneMissed(c, s) && PassedFill(s.threads[MainThread(c)].point)
    requires i < |s.threads| && i != MainThread(c)
    requires s.threads[i].point != Quit(Done) && s.threads[i].point != Quit(Unstarted)
    ensures s.threads[i].status != Asleep && Instruction(c, i, s.threads[i].point) != Stop
  {
    NeverAsleep(c, s, i);
    assert Placed(c, s, i);
    WorkerNotStopped(c, i, s.threads[i].point);
  }

  lemma MainLives(c: Config, s: State)
    requires AllPlaced(c, s) && SignalsOk(c, s)
    requires PassedFill(s.threads[MainThread(c)].point) && s.threads[MainThread(c)].point != Halting(Freed)
    requires forall i :: 0 <= i < |s.threads| && i != MainThread(c) ==> s.threads[i].point == Quit(Done)
    ensures
      var m := MainThread(c);
      s.threads[m].status != Asleep && Instruction(c, m, s.threads[m].point) != Stop
  {
    var m := MainThread(c);
    assert Placed(c, s, m);
    if s.threads[m].status == Asleep {
      NotAsleepWhenDone(c, s);
    }
  }

  lemma WorkerNotStopped(c: Config, i: nat, p: Point)
    requires Fits(c, i, p) && i != MainThread(c) && p != Quit(Done) && p != Quit(Unstarted)
    ensures Instruction(c, i, p) != Stop
  {
  }

  /** If every other thread has ended, the counter is complete and main is not left asleep. */
  lemma NotAsleepWhenDone(c: Config, s: State)
    requires Shape(c, s) && SignalsOk(c, s)
    requires forall i :: 0 <= i < |s.threads| && i != MainThread(c) ==> s.threads[i].point == Quit(Done)
    ensures !AsleepAt(s.threads[MainThread(c)], Halting(AwaitWait))
  {
    TallyDone(s.threads, MainThread(c));
  }

  lemma {:induction false} TallyDone(ts: seq<Thread>, m: nat)
    requires forall i :: 0 <= i < |ts| && i != m ==> Signalled(ts[i]) == 1
    ensures Tally(Signals(), ts) + 1 >= |ts|
    ensures m >= |ts| ==> Tally(Signals(), ts) == |ts|
  {
    if |ts| > 0 {
      TallyDone(ts[..|ts| - 1], m);
    }
  }

  /** Resources are freed only after all use: when main goes on to free the buffer, the queues, the
      lists and the locks, every other thread has run to its end and is in no critical section. */
  lemma FreedAfterUse(c: Config, s: State, i: nat)
    requires Sane(c) && Reachable(c, s) && Shape(c, s) && s.threads[MainThread(c)].point == Halting(Freed)
    requires i < |s.threads|
    ensures i != MainThread(c) ==> s.threads[i].point == Quit(Done)
    ensures s.threads[i].held == []
    ensures !exists g, w, s' :: 0 <= w && Step(c, s, i, g, w, s')
  {
    ReachableInv(c, s);
    EndedThread(c, s, i);
  }

  lemma EndedThread(c: Config, s: State, i: nat)
    requires AllPlaced(c, s) && AllDoneOk(c, s) && s.threads[MainThread(c)].point == Halting(Freed) && i < |s.threads|
    ensures i != MainThread(c) ==> s.threads[i].point == Quit(Done)
    ensures s.threads[i].held == []
    ensures !exists g, w, s' :: 0 <= w && Step(c, s, i, g, w, s')
  {
    assert Placed(c, s, i);
  }

  /** A thread that was not started stays so, and main then waits for ever: nothing is freed. */
  lemma {:induction false} UnstartedNeverFreed(c: Config, run: seq<State>, i: nat, k: nat)
    requires Sane(c) && IsRun(c, run) && k < |run|
    requires i < c.topics + 2 && i < |run[0].threads| && run[0].threads[i].point == Quit(Unstarted)
    ensures Shape(c, run[k]) && run[k].threads[i].point == Quit(Unstarted)
    ensures run[k].threads[MainThread(c)].point != Halting(Freed)
  {
    RunInv(c, run, k);
    assert InitialThread(c, i, run[0].threads[i]);
    if k > 0 {
      UnstartedNeverFreed(c, run, i, k - 1);
      RunInv(c, run, k - 1);
      assert Next(c, run[k - 1], run[k - 1 + 1]);
      UnstartedStays(c, run[k - 1], run[k], i);
    }
    assert Placed(c, run[k], i);
    UnstartedHolds(c, run[k], i);
  }

  lemma UnstartedStays(c: Config, s: State, s': State, i: nat)
    requires AllPlaced(c, s) && Next(c, s, s') && i < |s.threads| && s.threads[i].point == Quit(Unstarted)
    ensures i < |s'.threads| && s'.threads[i].point == Quit(Unstarted)
  {
    var j, g, w :| 0 <= j < |s.threads| && 0 <= w && Step(c, s, j, g, w, s');
    StepMoves(c, s, j, g, w, s');
    assert Placed(c, s, i);
  }

  lemma UnstartedHolds(c: Config, s: State, i: nat)
    requires AllPlaced(c, s) && AllDoneOk(c, s) && i < |s.threads| && s.threads[i].point == Quit(Unstarted)
    ensures s.threads[MainThread(c)].point != Halting(Freed)
  {
    assert Placed(c, s, i);
  }
}
