/** The shutdown handshake to its end. */
module Handshake {
  import opened Sequences
  import opened Program
  import opened Machine
  import opened Locking
  import opened Knowledge
  import opened Flow
  import opened Wakeups
  import opened Shutdown
  import opened Drain
  import opened Closing
  import opened Pipeline

  function StageOf(th: Thread): nat {
    Stage(th.point)
  }

  ghost function Stages(): (nat, Thread) -> nat {
    (i, th) => StageOf(th)
  }

  /** How far the main thread is from passing its wait, as far as it runs by itself. */
  function MainLeft(th: Thread): nat {
    match th.point
    case Halting(at) =>
      (match at
       case WakeRingLeave => 7
       case AwaitEnter => 6
       case AwaitTest => 4
       case AwaitWait => if th.status == Woken then 5 else if th.status == Running then 3 else 2
       case AwaitLeave => 1
       case _ => 0)
    case _ => 0
  }

  /** What is left to do: the stages of all threads, then within its stage the consumer's walk, then the
      main thread. */
  ghost predicate Less(c: Config, s': State, s: State)
    requires Shape(c, s) && Shape(c, s')
  {
    var k, m := ConsumerThread(c), MainThread(c);
    var a', a := Tally(Stages(), s'.threads), Tally(Stages(), s.threads);
    var b', b := Remaining(s'.threads[k].point), Remaining(s.threads[k].point);
    a' < a || (a' == a && (b' < b || (b' == b && MainLeft(s'.threads[m]) < MainLeft(s.threads[m]))))
  }

  /** The stages after a step: only the stepping thread's changes. */
  lemma StepStages(c: Config, s: State, i: nat, g: Point, w: nat, s': State)
    requires Shape(c, s) && i < |s.threads| && Step(c, s, i, g, w, s')
    ensures |s'.threads| == |s.threads|
    ensures Tally(Stages(), s'.threads) + StageOf(s.threads[i]) == Tally(Stages(), s.threads) + StageOf(s'.threads[i])
    ensures forall j :: 0 <= j < |s.threads| && j != i ==> s'.threads[j].point == s.threads[j].point
  {
    StepMoves(c, s, i, g, w, s');
    TallyUpdate(Stages(), s.threads, i, s'.threads[i]);
    TallySame(Stages(), s.threads[i := s'.threads[i]], s'.threads);
  }

  lemma WorkerLess(c: Config, s: State, i: nat, g: Point, w: nat, s': State)
    requires AllPlaced(c, s) && Shape(c, s') && i < |s.threads| && i != MainThread(c) && Step(c, s, i, g, w, s')
    requires Closer(s'.threads[i].point, s.threads[i].point)
    ensures Less(c, s', s)
  {
    assert Placed(c, s, i);
    StepStages(c, s, i, g, w, s');
  }

  lemma MainPoints(c: Config, p: Point)
    ensures PassedFill(p) ==> Stage(p) == 0
    ensures PassedFill(p) <==>
      (p.Halting? && (p.halt == WakeRingLeave || p.halt == AwaitEnter || p.halt == AwaitTest || p.halt == AwaitWait
                      || p.halt == AwaitLeave || p.halt == Freed))
  {
  }

  lemma MainLess(c: Config, s: State, g: Point, w: nat, s': State)
    requires AllPlaced(c, s) && Shape(c, s') && Step(c, s, MainThread(c), g, w, s')
    requires PassedFill(s.threads[MainThread(c)].point) && PassedFill(s'.threads[MainThread(c)].point)
    requires s.threads[MainThread(c)].status != Asleep
    ensures Less(c, s', s)
  {
    var m := MainThread(c);
    assert Placed(c, s, m);
    MainPoints(c, s.threads[m].point);
    MainPoints(c, s'.threads[m].point);
    StepStages(c, s, m, g, w, s');
  }

  /** A clean state from which the handshake is to end. */
  ghost predicate Ending(c: Config, s: State) {
    && Reachable(c, s) && Shape(c, s) && AllStarted(s)
    && PassedFill(s.threads[MainThread(c)].point) && Clean(c, s)
  }

  lemma StepStarted(c: Config, s: State, i: nat, g: Point, w: nat, s': State)
    requires AllPlaced(c, s) && i < |s.threads| && Step(c, s, i, g, w, s') && AllStarted(s)
    ensures AllStarted(s')
  {
    assert Placed(c, s, i);
    StepMoves(c, s, i, g, w, s');
    StepEdge(c, s, i, g, w, s');
  }

  /** Whichever thread steps by itself, what is left gets less, and the state stays clean. */
  lemma EndingStep(c: Config, s: State, i: nat, g: Point, w: nat, s': State)
    requires Sane(c) && Ending(c, s) && i < |s.threads| && s.threads[i].status != Asleep && Step(c, s, i, g, w, s')
    ensures Ending(c, s') && Less(c, s', s)
  {
    ReachableInv(c, s);
    ReachNext(c, s, i, g, w, s');
    StepPassed(c, s, i, g, w, s');
    StepKeepsClean(c, s, i, g, w, s');
    StepStarted(c, s, i, g, w, s');
    if i == MainThread(c) {
      MainLess(c, s, g, w, s');
    } else {
      EveryStepDrains(c, s, i, g, w, s');
      WorkerLess(c, s, i, g, w, s');
    }
  }

  lemma SomeStep(c: Config, s: State) returns (s': State)
    requires Sane(c) && Ending(c, s) && s.threads[MainThread(c)].point != Halting(Freed)
    ensures Next(c, s, s') && Ending(c, s') && Less(c, s', s)
  {
    var i := HandshakeAdvances(c, s);
    var g, w, t :| 0 <= w && Step(c, s, i, g, w, t);
    s' := t;
    EndingStep(c, s, i, g, w, s');
    StepIsNext(c, s, i, g, w, s');
  }

  /** With all threads started and a clean state after main's wakes, the handshake ends: some steps
      lead to where main has passed its wait, all through clean states, and by `EndingStep` threads
      cannot go on stepping by themselves for ever without getting there. */
  lemma {:induction false} HandshakeEnds(c: Config, s: State) returns (path: seq<State>)
    requires Sane(c) && Ending(c, s)
    ensures IsPath(c, path) && path[0] == s
    ensures forall k :: 0 <= k < |path| ==> Ending(c, path[k])
    ensures var end := path[|path| - 1]; Shape(c, end) && end.threads[MainThread(c)].point == Halting(Freed)
    decreases Tally(Stages(), s.threads), Remaining(Consumer(c, s).point), MainLeft(s.threads[MainThread(c)])
  {
    path := [s];
    if s.threads[MainThread(c)].point != Halting(Freed) {
      var s' := SomeStep(c, s);
      var rest := HandshakeEnds(c, s');
      path := [s] + rest;
    }
  }

  lemma StepIsNext(c: Config, s: State, i: nat, g: Point, w: nat, s': State)
    requires Shape(c, s) && i < |s.threads| && Step(c, s, i, g, w, s')
    ensures Next(c, s, s')
  {
  }

  lemma CleanAlong(c: Config, run: seq<State>, n: nat, m: nat)
    requires Sane(c) && IsRun(c, run) && n <= m < |run| && Shape(c, run[n]) && PassedFill(run[n].threads[MainThread(c)].point)
    ensures Shape(c, run[m]) && PassedFill(run[m].threads[MainThread(c)].point) && (Clean(c, run[m]) <==> Clean(c, run[n]))
  {
    var clean := Clean(c, run[n]);
    var holds := (s: State) => Shape(c, s) && PassedFill(s.threads[MainThread(c)].point) && (Clean(c, s) <==> clean);
    forall i | n <= i < m && holds(run[i]) ensures holds(run[i + 1]) {
      CleanNext(c, run, i);
    }
    HoldsAlong(run, holds, n, m);
  }

  lemma CleanNext(c: Config, run: seq<State>, k: nat)
    requires Sane(c) && IsRun(c, run) && k < |run| - 1 && Shape(c, run[k]) && PassedFill(run[k].threads[MainThread(c)].point)
    ensures Shape(c, run[k + 1]) && PassedFill(run[k + 1].threads[MainThread(c)].point)
    ensures Clean(c, run[k + 1]) <==> Clean(c, run[k])
  {
    RunInv(c, run, k);
    assert Next(c, run[k], run[k + 1]);
    NextKeepsClean(c, run[k], run[k + 1]);
  }

  lemma NextKeepsClean(c: Config, s: State, s': State)
    requires Orderly(c, s) && NoPuts(c, s) && Next(c, s, s') && PassedFill(s.threads[MainThread(c)].point)
    ensures Shape(c, s') && PassedFill(s'.threads[MainThread(c)].point) && (Clean(c, s') <==> Clean(c, s))
  {
    var i, g, w :| 0 <= i < |s.threads| && 0 <= w && Step(c, s, i, g, w, s');
    StepPassed(c, s, i, g, w, s');
    StepKeepsClean(c, s, i, g, w, s');
  }

  /** In every run in which main passes its wait, an element that nobody published has been sent
      exactly when the state was not clean at any one point after main's wakes: when a `get` had read
      an empty buffer, or the buffer was empty with the consumer on its way to a `get`. */
  lemma ShutdownSendsExtra(c: Config, run: seq<State>, n: nat, m: nat)
    requires Sane(c) && IsRun(c, run) && n <= m < |run| && Shape(c, run[n])
    requires PassedFill(run[n].threads[MainThread(c)].point)
    requires Shape(c, run[m]) && run[m].threads[MainThread(c)].point == Halting(Freed)
    ensures Extra(c, run[m]) != [] <==> !Clean(c, run[n])
  {
    CleanAlong(c, run, n, m);
    RunInv(c, run, m);
    SplitSent(c, run[m]);
    EndedThread(c, run[m], ConsumerThread(c));
  }
}
