/** The shutdown handshake: main sets the flag, wakes every sleeper, and waits for one signal from
    every other thread. */
module Shutdown {
  import opened Program
  import opened Discipline
  import opened Machine
  import opened Locking
  import opened Knowledge
  import opened Wakeups

  /** The thread has signalled and touches only the shutdown lock from here on. */
  function Signalled(th: Thread): nat {
    if th.point.Quit? && th.point.quit in {SignalWake, SignalLeave, Done} then 1 else 0
  }

  ghost function Signals(): (nat, Thread) -> nat {
    (i, th) => Signalled(th)
  }

  ghost predicate AwaitFacts(c: Config, signals: nat, th: Thread) {
    && (th.point == Halting(AwaitWait) && th.status == Running ==> signals < c.topics + 1)
    && (th.point == Halting(AwaitLeave) || th.point == Halting(Freed) ==> signals >= c.topics + 1)
  }

  /** The counter is the number of threads that have signalled, and main sleeps on it only while
      it is too small, unless a thread is about to wake main. */
  ghost predicate SignalsOk(c: Config, s: State)
    requires Shape(c, s)
  {
    && s.data.signals == Tally(Signals(), s.threads)
    && AwaitFacts(c, s.data.signals, s.threads[MainThread(c)])
    && (AsleepAt(s.threads[MainThread(c)], Halting(AwaitWait)) ==>
        s.data.signals < c.topics + 1 || SomeRunsAt(s, Quit(SignalWake)))
  }

  /** Main has woken the sleeper on the queue of topic `t`. */
  predicate PassedQueue(p: Point, t: nat) {
    p.Halting? &&
    match p.halt
    case HaltEnter => false
    case HaltSet => false
    case HaltLeave => false
    case WakeEnter(k) => t < k
    case WakeQueue(k) => t < k
    case WakeLeave(k) => t <= k
    case _ => true
  }

  predicate PassedFill(p: Point) {
    p.Halting? && p.halt in {WakeRingLeave, AwaitEnter, AwaitTest, AwaitWait, AwaitLeave, Freed}
  }

  predicate PassedEmpty(p: Point) {
    PassedFill(p) || p == Halting(WakeFill)
  }

  /** The thread is not asleep at `p`, nor about to sleep there. */
  predicate UpFrom(th: Thread, p: Point) {
    th.point == p ==> th.status == Woken
  }

  ghost predicate NoneMissed(c: Config, s: State)
    requires Shape(c, s)
  {
    var p := s.threads[MainThread(c)].point;
    && (forall t :: 0 <= t < c.topics && PassedQueue(p, t) ==> UpFrom(s.threads[t], Queue(QueueWait)))
    && (PassedEmpty(p) ==> forall j :: 0 <= j < c.topics ==> UpFrom(s.threads[j], Ring(RingWait)))
    && (PassedFill(p) ==> UpFrom(s.threads[ConsumerThread(c)], Fetch(FillWait)))
  }

  lemma {:induction false} TallySame(f: (nat, Thread) -> nat, ts: seq<Thread>, us: seq<Thread>)
    requires |ts| == |us| && forall j :: 0 <= j < |ts| ==> f(j, ts[j]) == f(j, us[j])
    ensures Tally(f, ts) == Tally(f, us)
  {
    if |ts| > 0 {
      TallySame(f, ts[..|ts| - 1], us[..|us| - 1]);
    }
  }

  lemma StepSignalled(c: Config, s: State, i: nat, g: Point, w: nat, s': State)
    requires AllPlaced(c, s) && i < |s.threads| && Step(c, s, i, g, w, s')
    ensures |s'.threads| == |s.threads|
    ensures s'.data.signals + Signalled(s.threads[i]) == s.data.signals + Signalled(s'.threads[i])
  {
    assert Placed(c, s, i);
    if !s.threads[i].point.Quit? {
      StepEdge(c, s, i, g, w, s');
      NotQuitting(c, i, s.threads[i].point);
      if s.threads[i].status != Asleep && s'.threads[i].point.Quit? {
        EdgeQuit(c, i, s.threads[i].point, s'.threads[i].point);
      }
    }
  }

  lemma NotQuitting(c: Config, i: nat, p: Point)
    requires Fits(c, i, p) && !p.Quit?
    ensures Instruction(c, i, p).Do? ==> Instruction(c, i, p).op != CountSignal
  {
  }

  lemma EdgeQuit(c: Config, i: nat, p: Point, q: Point)
    requires Fits(c, i, p) && Edge(c, i, p, q) && !p.Quit? && q.Quit?
    ensures q == Quit(SignalEnter)
  {
  }

  lemma StepCount(c: Config, s: State, i: nat, g: Point, w: nat, s': State)
    requires AllPlaced(c, s) && s.data.signals == Tally(Signals(), s.threads) && i < |s.threads| && Step(c, s, i, g, w, s')
    ensures s'.data.signals == Tally(Signals(), s'.threads)
  {
    StepMoves(c, s, i, g, w, s');
    StepSignalled(c, s, i, g, w, s');
    TallyUpdate(Signals(), s.threads, i, s'.threads[i]);
    TallySame(Signals(), s.threads[i := s'.threads[i]], s'.threads);
  }

  lemma EdgeAwait(c: Config, p: Point, q: Point)
    requires Fits(c, MainThread(c), p) && Edge(c, MainThread(c), p, q)
    ensures q == Halting(Freed) ==> p == Halting(AwaitLeave)
    ensures q == Halting(AwaitLeave) || q == Halting(AwaitWait) ==> p == Halting(AwaitTest) || p == q
  {
  }

  lemma MainAwaits(c: Config, s: State, g: Point, w: nat, s': State)
    requires AllPlaced(c, s) && SignalsOk(c, s) && Step(c, s, MainThread(c), g, w, s')
    ensures Shape(c, s') && AwaitFacts(c, s'.data.signals, s'.threads[MainThread(c)])
  {
    var m := MainThread(c);
    StepPlaces(c, s, m, g, w, s');
    StepSignalled(c, s, m, g, w, s');
    StepEdge(c, s, m, g, w, s');
    assert Placed(c, s, m) && Placed(c, s', m);
    if s.threads[m].status != Asleep {
      EdgeAwait(c, s.threads[m].point, s'.threads[m].point);
    }
  }

  lemma StepAwait(c: Config, s: State, i: nat, g: Point, w: nat, s': State)
    requires Orderly(c, s) && SignalsOk(c, s) && i < |s.threads| && Step(c, s, i, g, w, s')
    ensures Shape(c, s') && AwaitFacts(c, s'.data.signals, s'.threads[MainThread(c)])
  {
    var m := MainThread(c);
    if i == m {
      MainAwaits(c, s, g, w, s');
    } else {
      StepPlaces(c, s, i, g, w, s');
      StepMoves(c, s, i, g, w, s');
      assert Placed(c, s, m);
      if s'.data.signals != s.data.signals {
        CountHolds(c, s, i, g, w, s');
      }
    }
  }

  lemma CountHolds(c: Config, s: State, i: nat, g: Point, w: nat, s': State)
    requires AllPlaced(c, s) && i < |s.threads| && Step(c, s, i, g, w, s') && s'.data.signals != s.data.signals
    ensures ShutLock in s.threads[i].held && s.threads[i].status == Running && s'.data.signals > s.data.signals
    ensures |s'.threads| == |s.threads| && s'.threads[i].point == Quit(SignalWake) && s'.threads[i].status == Running
  {
    assert Placed(c, s, i);
    if !s.threads[i].point.Quit? {
      NotQuitting(c, i, s.threads[i].point);
    }
  }

  lemma StepAwaitSleep(c: Config, s: State, i: nat, g: Point, w: nat, s': State)
    requires Orderly(c, s) && SignalsOk(c, s) && i < |s.threads| && Step(c, s, i, g, w, s')
    requires Shape(c, s') && AsleepAt(s'.threads[MainThread(c)], Halting(AwaitWait))
    ensures s'.data.signals < c.topics + 1 || SomeRunsAt(s', Quit(SignalWake))
  {
    var m := MainThread(c);
    StepMoves(c, s, i, g, w, s');
    assert Placed(c, s, i) && Placed(c, s, m);
    if i == m {
      AwaitSleeps(c, s, i, g, w, s');
    } else if s'.data.signals != s.data.signals {
      CountHolds(c, s, i, g, w, s');
    } else if SomeRunsAt(s, Quit(SignalWake)) {
      StillRuns(c, s, i, g, w, s');
    }
  }

  /** The thread that is about to wake main still is, or it was this one and main is woken. */
  lemma StillRuns(c: Config, s: State, i: nat, g: Point, w: nat, s': State)
    requires AllPlaced(c, s) && i < |s.threads| && i != MainThread(c) && Step(c, s, i, g, w, s')
    requires Shape(c, s') && AsleepAt(s'.threads[MainThread(c)], Halting(AwaitWait)) && SomeRunsAt(s, Quit(SignalWake))
    ensures SomeRunsAt(s', Quit(SignalWake))
  {
    var m := MainThread(c);
    var j :| 0 <= j < |s.threads| && s.threads[j].status == Running && s.threads[j].point == Quit(SignalWake);
    StepMoves(c, s, i, g, w, s');
    if j == i {
      assert Placed(c, s, i) && Placed(c, s, m);
      SleepPoint(c, m, s.threads[m]);
      OnlySleeper(c, s, i, g, w, s', m, ShutCv);
    }
    assert s'.threads[j] == s.threads[j];
  }

  lemma AwaitSleeps(c: Config, s: State, i: nat, g: Point, w: nat, s': State)
    requires Orderly(c, s) && SignalsOk(c, s) && i == MainThread(c) && Step(c, s, i, g, w, s')
    requires Shape(c, s') && AsleepAt(s'.threads[i], Halting(AwaitWait))
    ensures s'.data.signals < c.topics + 1
  {
    assert Placed(c, s, i);
    StepEdge(c, s, i, g, w, s');
  }

  lemma StepSignals(c: Config, s: State, i: nat, g: Point, w: nat, s': State)
    requires Orderly(c, s) && SignalsOk(c, s) && i < |s.threads| && Step(c, s, i, g, w, s')
    ensures Shape(c, s') && SignalsOk(c, s')
  {
    StepAwait(c, s, i, g, w, s');
    StepCount(c, s, i, g, w, s');
    if AsleepAt(s'.threads[MainThread(c)], Halting(AwaitWait)) {
      StepAwaitSleep(c, s, i, g, w, s');
    }
  }

  /** Main's own steps extend what it has passed only by waking. */
  lemma EdgePassed(c: Config, p: Point, q: Point, t: nat)
    requires Fits(c, MainThread(c), p) && Edge(c, MainThread(c), p, q)
    ensures t < c.topics && PassedQueue(q, t) ==> PastFlag(p) && (PassedQueue(p, t) || p == Halting(WakeQueue(t)))
    ensures PassedEmpty(q) ==> PassedEmpty(p) || p == Halting(WakeEmpty)
    ensures PassedFill(q) ==> PassedFill(p) || p == Halting(WakeFill)
    ensures PassedEmpty(q) || PassedFill(q) ==> PastFlag(p)
  {
  }

  /** With the flag set, a step never leads to a sleep. */
  lemma NoSleepUnderFlag(c: Config, s: State, i: nat, g: Point, w: nat, s': State)
    requires Orderly(c, s) && s.data.flag && i < |s.threads| && i != MainThread(c) && Step(c, s, i, g, w, s')
    ensures |s'.threads| == |s.threads|
    ensures forall p :: p in {Queue(QueueWait), Ring(RingWait), Fetch(FillWait)} && UpFrom(s.threads[i], p) ==>
      UpFrom(s'.threads[i], p)
  {
    assert Placed(c, s, i);
    StepEdge(c, s, i, g, w, s');
    if s.threads[i].status != Asleep && s'.threads[i].point in {Queue(QueueWait), Ring(RingWait), Fetch(FillWait)} {
      EdgeToSleep(c, i, s.threads[i].point, s'.threads[i].point);
    }
  }

  lemma EdgeToSleep(c: Config, i: nat, p: Point, q: Point)
    requires Fits(c, i, p) && Edge(c, i, p, q) && q in {Queue(QueueWait), Ring(RingWait), Fetch(FillWait)}
    ensures p == q || (Instruction(c, i, p).If? && Instruction(c, i, p).test == Flag && Instruction(c, i, p).no == q
                       && Instruction(c, i, p).yes != q)
  {
  }

  lemma StepQueuePassed(c: Config, s: State, i: nat, g: Point, w: nat, s': State, t: nat)
    requires Orderly(c, s) && NoneMissed(c, s) && i < |s.threads| && Step(c, s, i, g, w, s') && t < c.topics
    requires Shape(c, s') && PassedQueue(s'.threads[MainThread(c)].point, t)
    ensures UpFrom(s'.threads[t], Queue(QueueWait))
  {
    var m := MainThread(c);
    StepMoves(c, s, i, g, w, s');
    StepEdge(c, s, i, g, w, s');
    assert Placed(c, s, i) && Placed(c, s, m) && Placed(c, s, t);
    if i != m {
      NoSleepUnderFlag(c, s, i, g, w, s');
    } else if s.threads[m].status != Asleep {
      EdgePassed(c, s.threads[m].point, s'.threads[m].point, t);
      if s.threads[m].point == Halting(WakeQueue(t)) && s.threads[t].point == Queue(QueueWait) {
        assert QueueLock(t) in Held(m, Halting(WakeQueue(t)));
        if s.threads[t].status == Asleep {
          SleepPoint(c, t, s.threads[t]);
          OnlySleeper(c, s, m, g, w, s', t, QueueCv(t));
        }
      }
    }
  }

  lemma StepEmptyPassed(c: Config, s: State, i: nat, g: Point, w: nat, s': State, j: nat)
    requires Orderly(c, s) && NoneMissed(c, s) && i < |s.threads| && Step(c, s, i, g, w, s') && j < c.topics
    requires Shape(c, s') && PassedEmpty(s'.threads[MainThread(c)].point)
    ensures UpFrom(s'.threads[j], Ring(RingWait))
  {
    var m := MainThread(c);
    StepMoves(c, s, i, g, w, s');
    StepEdge(c, s, i, g, w, s');
    assert Placed(c, s, i) && Placed(c, s, m) && Placed(c, s, j);
    if i != m {
      NoSleepUnderFlag(c, s, i, g, w, s');
    } else if s.threads[m].status != Asleep {
      EdgePassed(c, s.threads[m].point, s'.threads[m].point, 0);
      if s.threads[m].point == Halting(WakeEmpty) && s.threads[j].point == Ring(RingWait) {
        assert RingLock in Held(m, Halting(WakeEmpty));
        SleepPoint(c, j, s.threads[j]);
      }
    }
  }

  /** Main's `WakeAll` on the consumer's condition variable reaches it: it is not about to sleep,
      because main holds the buffer's lock. */
  lemma FillWoken(c: Config, s: State, g: Point, w: nat, s': State)
    requires Orderly(c, s) && Step(c, s, MainThread(c), g, w, s') && s.threads[MainThread(c)].status == Running
    requires s.threads[MainThread(c)].point == Halting(WakeFill)
    ensures Shape(c, s') && UpFrom(s'.threads[ConsumerThread(c)], Fetch(FillWait))
  {
    var m, k := MainThread(c), ConsumerThread(c);
    StepPlaces(c, s, m, g, w, s');
    assert Placed(c, s, m) && Placed(c, s, k) && RingLock in s.threads[m].held;
    SleepPoint(c, k, s.threads[k]);
  }

  lemma StepFillPassed(c: Config, s: State, i: nat, g: Point, w: nat, s': State)
    requires Orderly(c, s) && NoneMissed(c, s) && i < |s.threads| && Step(c, s, i, g, w, s')
    requires Shape(c, s') && PassedFill(s'.threads[MainThread(c)].point)
    ensures UpFrom(s'.threads[ConsumerThread(c)], Fetch(FillWait))
  {
    var m, k := MainThread(c), ConsumerThread(c);
    StepMoves(c, s, i, g, w, s');
    assert Placed(c, s, m);
    if i != m {
      if i == k {
        NoSleepUnderFlag(c, s, i, g, w, s');
      }
    } else if s.threads[m].status != Asleep {
      StepEdge(c, s, i, g, w, s');
      EdgePassed(c, s.threads[m].point, s'.threads[m].point, 0);
      if s.threads[m].point == Halting(WakeFill) {
        FillWoken(c, s, g, w, s');
      }
    }
  }

  lemma StepNoneMissed(c: Config, s: State, i: nat, g: Point, w: nat, s': State)
    requires Orderly(c, s) && NoneMissed(c, s) && i < |s.threads| && Step(c, s, i, g, w, s')
    ensures Shape(c, s') && NoneMissed(c, s')
  {
    StepPlaces(c, s, i, g, w, s');
    var p := s'.threads[MainThread(c)].point;
    forall t | 0 <= t < c.topics && PassedQueue(p, t) ensures UpFrom(s'.threads[t], Queue(QueueWait)) {
      StepQueuePassed(c, s, i, g, w, s', t);
    }
    if PassedEmpty(p) {
      forall j | 0 <= j < c.topics ensures UpFrom(s'.threads[j], Ring(RingWait)) {
        StepEmptyPassed(c, s, i, g, w, s', j);
      }
    }
    if PassedFill(p) {
      StepFillPassed(c, s, i, g, w, s');
    }
  }

  /** When main has seen the counter complete, every other thread has run to its end. */
  ghost predicate AllDoneOk(c: Config, s: State)
    requires Shape(c, s)
  {
    s.threads[MainThread(c)].point in {Halting(AwaitLeave), Halting(Freed)} ==>
      forall i :: 0 <= i < |s.threads| && i != MainThread(c) ==> s.threads[i].point == Quit(Done)
  }

  lemma {:induction false} TallyBound(ts: seq<Thread>)
    ensures Tally(Signals(), ts) <= |ts|
    ensures forall i :: 0 <= i < |ts| && Signalled(ts[i]) == 0 ==> Tally(Signals(), ts) < |ts|
    ensures forall i, j :: 0 <= i < j < |ts| && Signalled(ts[i]) == 0 && Signalled(ts[j]) == 0 ==> Tally(Signals(), ts) + 1 < |ts|
  {
    if |ts| > 0 {
      var us := ts[..|ts| - 1];
      TallyBound(us);
      assert forall i :: 0 <= i < |us| ==> us[i] == ts[i];
    }
  }

  /** A complete counter means that every thread but main has signalled. */
  lemma CompleteCount(c: Config, s: State, i: nat)
    requires AllPlaced(c, s) && s.data.signals == Tally(Signals(), s.threads) && s.data.signals >= c.topics + 1
    requires i < |s.threads| && i != MainThread(c)
    ensures Signalled(s.threads[i]) == 1
  {
    TallyBound(s.threads);
    assert Placed(c, s, MainThread(c));
  }

  lemma StepAllDone(c: Config, s: State, i: nat, g: Point, w: nat, s': State)
    requires Orderly(c, s) && SignalsOk(c, s) && AllDoneOk(c, s) && i < |s.threads| && Step(c, s, i, g, w, s')
    ensures Shape(c, s') && AllDoneOk(c, s')
  {
    var m := MainThread(c);
    StepPlaces(c, s, i, g, w, s');
    StepMoves(c, s, i, g, w, s');
    StepEdge(c, s, i, g, w, s');
    assert Placed(c, s, i) && Placed(c, s, m);
    if s'.threads[m].point in {Halting(AwaitLeave), Halting(Freed)} {
      if i == m && s.threads[m].status != Asleep {
        EdgeAwait(c, s.threads[m].point, s'.threads[m].point);
      }
      if s.threads[m].point == Halting(AwaitTest) {
        MainSeesAll(c, s, g, w, s');
      } else {
        DoneStays(c, s, i, g, w, s');
      }
    }
  }

  lemma DoneStays(c: Config, s: State, i: nat, g: Point, w: nat, s': State)
    requires AllPlaced(c, s) && i < |s.threads| && Step(c, s, i, g, w, s') && |s'.threads| == |s.threads|
    ensures forall j :: 0 <= j < |s.threads| && s.threads[j].point == Quit(Done) ==> s'.threads[j].point == Quit(Done)
  {
    StepMoves(c, s, i, g, w, s');
    assert Placed(c, s, i);
  }

  lemma MainSeesAll(c: Config, s: State, g: Point, w: nat, s': State)
    requires Orderly(c, s) && SignalsOk(c, s) && Step(c, s, MainThread(c), g, w, s')
    requires s.threads[MainThread(c)].point == Halting(AwaitTest)
    requires |s'.threads| == |s.threads| && s'.threads[MainThread(c)].point == Halting(AwaitLeave)
    ensures forall i :: 0 <= i < |s.threads| && i != MainThread(c) ==> s'.threads[i].point == Quit(Done)
  {
    var m := MainThread(c);
    assert Placed(c, s, m) && ShutLock in s.threads[m].held;
    forall i | 0 <= i < |s.threads| && i != m ensures s'.threads[i].point == Quit(Done) {
      CompleteCount(c, s, i);
      assert Placed(c, s, i);
    }
  }

  lemma {:induction false} TallyZero(f: (nat, Thread) -> nat, ts: seq<Thread>)
    requires forall j :: 0 <= j < |ts| ==> f(j, ts[j]) == 0
    ensures Tally(f, ts) == 0
  {
    if |ts| > 0 {
      TallyZero(f, ts[..|ts| - 1]);
    }
  }

  lemma InitShutdown(c: Config, s: State)
    requires Sane(c) && Init(c, s)
    ensures SignalsOk(c, s) && NoneMissed(c, s) && AllDoneOk(c, s)
  {
    forall i | 0 <= i < |s.threads| ensures Signalled(s.threads[i]) == 0 && s.threads[i].status == Running {
      assert InitialThread(c, i, s.threads[i]);
    }
    TallyZero(Signals(), s.threads);
    assert InitialThread(c, MainThread(c), s.threads[MainThread(c)]);
  }
}
