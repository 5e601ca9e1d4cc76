/** A run in which the consumer's last `get` reads an empty buffer: a producer was not started, and the
    flag is raised between the consumer's test of the count and its test of the flag.  What it reads
    is then sent, though nobody published it. */
module EmptyGet {
  import opened Options
  import opened Program
  import opened Machine
  import opened Flow
  import opened Deadlock
  import opened Pipeline
  import R = Ring

  /** What an unused slot of the buffer holds. */
  const NOTHING: Element := Element(None, Connection(0))

  /** Nothing was published or sent, the next slot is unused, and the first producer was not started. */
  ghost predicate Untouched(c: Config, s: State)
    requires Shape(c, s)
  {
    Silent(c, s) && R.Head(s.data.ring) == NOTHING
  }

  /** A reachable state with an empty buffer in which only the main thread, at `m`, and the
      consumer, at `k`, may be in critical sections. */
  ghost predicate Pair(c: Config, s: State, flag: bool, m: Point, mh: seq<Lock>, k: Point, kh: seq<Lock>) {
    && Reachable(c, s) && Shape(c, s)
    && Untouched(c, s) && s.data.sent == [] && s.data.ring.count == 0 && s.data.flag == flag
    && (forall j :: 0 <= j < c.topics ==> s.threads[j].held == [])
    && s.threads[MainThread(c)] == Thread(m, Running, mh, None)
    && s.threads[ConsumerThread(c)] == Thread(k, Running, kh, None)
  }

  /** The step of thread `i` that leads to `th` and sets the flag to `flag`. */
  lemma Take(c: Config, s: State, i: nat, g: Point, th: Thread, flag: bool) returns (s': State)
    requires Reachable(c, s) && Shape(c, s) && i < |s.threads| && s.threads[i].status == Running
    requires Guard(c, s, i, g) && th == ThreadAfter(c, s, i, g)
    requires
      var instr := Instruction(c, i, s.threads[i].point);
      && (instr.Do? ==> instr.op.Enter? || instr.op.Leave? || instr.op.SetFlag?)
      && flag == (s.data.flag || (instr.Do? && instr.op.SetFlag?))
    ensures Reachable(c, s') && s' == State(s.data.(flag := flag), s.threads[i := th])
  {
    s' := State(s.data.(flag := flag), s.threads[i := th]);
    assert Exec(c, s, i, g, 0, s') && Step(c, s, i, g, 0, s');
    ReachNext(c, s, i, g, 0, s');
  }

  lemma ConsumerEnters(c: Config, s: State, flag: bool, m: Point, k: Point, kh: seq<Lock>, l: Lock, q: Point) returns (s': State)
    requires Pair(c, s, flag, m, [], k, kh) && Instruction(c, ConsumerThread(c), k) == Do(Enter(l), q)
    ensures Pair(c, s', flag, m, [], q, kh + [l])
  {
    s' := Take(c, s, ConsumerThread(c), k, Thread(q, Running, kh + [l], None), flag);
  }

  lemma ConsumerReadsFlag(c: Config, s: State, flag: bool, m: Point, k: Point, kh: seq<Lock>, q: Point) returns (s': State)
    requires Pair(c, s, flag, m, [], k, kh + [ShutLock]) && Instruction(c, ConsumerThread(c), k).If?
    requires Instruction(c, ConsumerThread(c), k).test == Flag
    requires q == if flag then Instruction(c, ConsumerThread(c), k).yes else Instruction(c, ConsumerThread(c), k).no
    ensures Pair(c, s', flag, m, [], q, kh)
  {
    assert (kh + [ShutLock])[..|kh|] == kh;
    s' := Take(c, s, ConsumerThread(c), k, Thread(q, Running, kh, None), flag);
  }

  lemma ConsumerTestsCount(c: Config, s: State, m: Point) returns (s': State)
    requires Pair(c, s, false, m, [], Fetch(FillTest), [RingLock])
    ensures Pair(c, s', false, m, [], Fetch(FillFlagEnter), [RingLock])
  {
    s' := Take(c, s, ConsumerThread(c), m, Thread(Fetch(FillFlagEnter), Running, [RingLock], None), false);
  }

  ghost function Start(c: Config): (s: State)
    requires Sane(c) && 0 < c.topics
    ensures Init(c, s) && s.threads[ConsumerThread(c)].point == Fetch(FetchEnter)
  {
    State(Data(false, 0, R.Ring(seq(c.capacity, k => NOTHING), 0, 0, 0), seq(c.topics, t => []),
               seq(c.topics + 1, x => []), [], seq(c.topics + 1, x => []), false),
          seq(c.topics + 2, i requires 0 <= i < c.topics + 2 => Thread(
            if i == MainThread(c) then Serve(Idle) else if i == ConsumerThread(c) then Fetch(FetchEnter)
            else if i == 0 then Quit(Unstarted) else Queue(LoopEnter),
            Running, [], None)))
  }

  lemma Begins(c: Config) returns (s: State)
    requires Sane(c) && 0 < c.topics
    ensures Pair(c, s, false, Serve(Idle), [], Fetch(FetchEnter), [])
  {
    s := Start(c);
    assert IsRun(c, [s]);
  }

  /** The consumer tests the count of the empty buffer before the flag is set. */
  lemma TestsFirst(c: Config) returns (s: State)
    requires Sane(c) && 0 < c.topics
    ensures Pair(c, s, false, Serve(Idle), [], Fetch(FillFlagEnter), [RingLock])
  {
    s := Begins(c);
    s := ConsumerEnters(c, s, false, Serve(Idle), Fetch(FetchEnter), [], ShutLock, Fetch(FetchRead));
    s := ConsumerReadsFlag(c, s, false, Serve(Idle), Fetch(FetchRead), [], Fetch(FillEnter));
    s := ConsumerEnters(c, s, false, Serve(Idle), Fetch(FillEnter), [], RingLock, Fetch(FillTest));
    assert [] + [RingLock] == [RingLock];
    s := ConsumerTestsCount(c, s, Serve(Idle));
  }

  /** Then main sets the flag. */
  lemma FlagSecond(c: Config, s: State) returns (s': State)
    requires Sane(c) && Pair(c, s, false, Serve(Idle), [], Fetch(FillFlagEnter), [RingLock])
    ensures Pair(c, s', true, Halting(WakeEnter(0)), [], Fetch(FillFlagEnter), [RingLock])
  {
    var k := Fetch(FillFlagEnter);
    s' := MainHalts(c, s, k);
    s' := MainTakes(c, s', false, Halting(HaltSet), [ShutLock], k, Halting(HaltLeave), [ShutLock], k);
    s' := MainTakes(c, s', true, Halting(HaltLeave), [ShutLock], k, Halting(WakeEnter(0)), [], k);
  }

  lemma MainHalts(c: Config, s: State, k: Point) returns (s': State)
    requires Pair(c, s, false, Serve(Idle), [], k, [RingLock])
    ensures Pair(c, s', false, Halting(HaltSet), [ShutLock], k, [RingLock])
  {
    s' := MainTakes(c, s, false, Serve(Idle), [], Halting(HaltEnter), Halting(HaltEnter), [], k);
    s' := MainTakes(c, s', false, Halting(HaltEnter), [], k, Halting(HaltSet), [ShutLock], k);
  }

  lemma MainTakes(c: Config, s: State, flag: bool, m: Point, mh: seq<Lock>, g: Point, q: Point, qh: seq<Lock>, k: Point)
      returns (s': State)
    requires m.Halting? || m == Serve(Idle)
    requires Pair(c, s, flag, m, mh, k, [RingLock]) && Guard(c, s, MainThread(c), g)
    requires var instr := Instruction(c, MainThread(c), m); instr.Do? ==> instr.op.Enter? || instr.op.Leave? || instr.op.SetFlag?
    requires Thread(q, Running, qh, None) == ThreadAfter(c, s, MainThread(c), g)
    ensures Pair(c, s', flag || m == Halting(HaltSet), q, qh, k, [RingLock])
  {
    s' := Take(c, s, MainThread(c), g, Thread(q, Running, qh, None), flag || m == Halting(HaltSet));
  }

  /** The consumer after the `get`, with nothing but its hand to send. */
  ghost predicate After(c: Config, s: State, k: Point, kh: seq<Lock>, hand: Option<Element>, sent: seq<Element>) {
    && Reachable(c, s) && Shape(c, s) && Silent(c, s)
    && s.data.flag && s.data.stale && s.data.ring.count == -1 && s.data.sent == sent
    && (forall j :: 0 <= j < c.topics + 1 ==> s.threads[j].held == [])
    && s.threads[ConsumerThread(c)] == Thread(k, Running, kh, hand)
  }

  ghost predicate Silent(c: Config, s: State)
    requires Shape(c, s)
  {
    && 0 < c.topics && s.threads[0].point == Quit(Unstarted)
    && forall x :: 0 <= x <= c.topics ==> s.data.published[x] == []
  }

  /** Whatever the number of topics and the capacity, the count can drop to -1 after shutdown, which is
      called because a thread was not started. */
  lemma CountCanDropBelowZero(c: Config) returns (s: State)
    requires Sane(c) && 0 < c.topics
    ensures Reachable(c, s) && s.data.ring.count == -1 && s.data.stale
    ensures After(c, s, Fetch(TakenEnter), [RingLock], Some(NOTHING), [])
  {
    s := TestsFirst(c);
    s := FlagSecond(c, s);
    var m, k := Halting(WakeEnter(0)), ConsumerThread(c);
    s := ConsumerEnters(c, s, true, m, Fetch(FillFlagEnter), [RingLock], ShutLock, Fetch(FillFlagRead));
    s := ConsumerReadsFlag(c, s, true, m, Fetch(FillFlagRead), [RingLock], Fetch(FillTake));
    s := TakesNothing(c, s, m);
  }

  lemma TakesNothing(c: Config, s: State, m: Point) returns (s': State)
    requires Pair(c, s, true, m, [], Fetch(FillTake), [RingLock])
    ensures After(c, s', Fetch(TakenEnter), [RingLock], Some(NOTHING), [])
  {
    var k := ConsumerThread(c);
    s' := Successors(c, s, k, m, 0);
    assert Exec(c, s, k, m, 0, s') && Step(c, s, k, m, 0, s');
    ReachNext(c, s, k, m, 0, s');
  }

  /** A step of the consumer on its way to the delivery. */
  lemma Onward(c: Config, s: State, k: Point, kh: seq<Lock>, sent: seq<Element>, g: Point,
               k': Point, kh': seq<Lock>) returns (s': State)
    requires After(c, s, k, kh, Some(NOTHING), sent) && Guard(c, s, ConsumerThread(c), g)
    requires var instr := Instruction(c, ConsumerThread(c), k); instr.Do? ==> instr.op.Enter? || instr.op.Leave?
    requires ThreadAfter(c, s, ConsumerThread(c), g) == Thread(k', Running, kh', Some(NOTHING))
    ensures After(c, s', k', kh', Some(NOTHING), sent)
  {
    var i := ConsumerThread(c);
    s' := Successors(c, s, i, g, 0);
    assert Exec(c, s, i, g, 0, s') && Step(c, s, i, g, 0, s');
    ReachNext(c, s, i, g, 0, s');
  }

  lemma Delivers(c: Config, s: State) returns (s': State)
    requires After(c, s, Sending(true, Delivered), [RingLock], Some(NOTHING), [])
    ensures After(c, s', Fetch(FinalLeave), [RingLock], None, [NOTHING])
  {
    var k := ConsumerThread(c);
    s' := Successors(c, s, k, s.threads[k].point, 0);
    assert Exec(c, s, k, s.threads[k].point, 0, s') && Step(c, s, k, s.threads[k].point, 0, s');
    ReachNext(c, s, k, s.threads[k].point, 0, s');
  }

  lemma ReadsTaken(c: Config, s: State) returns (s': State)
    requires After(c, s, Fetch(TakenEnter), [RingLock], Some(NOTHING), [])
    ensures After(c, s', Sending(true, SendStart), [RingLock], Some(NOTHING), [])
  {
    s' := EntersTaken(c, s);
    assert [RingLock, ShutLock][..1] == [RingLock];
    s' := Onward(c, s', Fetch(TakenRead), [RingLock, ShutLock], [], Fetch(TakenRead), Sending(true, SendStart), [RingLock]);
  }

  lemma EntersTaken(c: Config, s: State) returns (s': State)
    requires After(c, s, Fetch(TakenEnter), [RingLock], Some(NOTHING), [])
    ensures After(c, s', Fetch(TakenRead), [RingLock, ShutLock], Some(NOTHING), [])
  {
    s' := Onward(c, s, Fetch(TakenEnter), [RingLock], [], Fetch(TakenEnter), Fetch(TakenRead), [RingLock, ShutLock]);
  }

  lemma SendsTaken(c: Config, s: State) returns (s': State)
    requires After(c, s, Sending(true, SendStart), [RingLock], Some(NOTHING), [])
    ensures After(c, s', Sending(true, Delivered), [RingLock], Some(NOTHING), [])
  {
    var locks := [RingLock];
    s' := Onward(c, s, Sending(true, SendStart), locks, [], Sending(true, Poll(Single)), Sending(true, Poll(Single)), locks);
    s' := Onward(c, s', Sending(true, Poll(Single)), locks, [], Sending(true, Send(Single)), Sending(true, Send(Single)), locks);
    s' := Onward(c, s', Sending(true, Send(Single)), locks, [], Sending(true, Delivered), Sending(true, Delivered), locks);
  }

  /** And what it read, which nobody published, is sent. */
  lemma NothingIsSent(c: Config) returns (s: State)
    requires Sane(c) && 0 < c.topics
    ensures Reachable(c, s) && Shape(c, s) && s.threads[0].point == Quit(Unstarted)
    ensures forall x :: 0 <= x <= c.topics ==> s.data.published[x] == []
    ensures s.data.sent == [Element(None, Connection(0))] == Extra(c, s)
  {
    s := CountCanDropBelowZero(c);
    s := ReadsTaken(c, s);
    s := SendsTaken(c, s);
    s := Delivers(c, s);
  }
}
