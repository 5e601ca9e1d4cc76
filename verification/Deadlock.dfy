/** Deadlock freedom: waiting for a critical section always ends at a thread that can run. */
module Deadlock {
  import opened Program
  import opened Discipline
  import opened Machine
  import opened Locking
  import opened Knowledge

  /** Thread `i` is about to enter `l`, or has been woken and is about to get `l` back. */
  ghost predicate Wants(c: Config, s: State, i: nat, l: Lock)
    requires i < |s.threads|
  {
    match Instruction(c, i, s.threads[i].point)
    case Do(Enter(m), _) => s.threads[i].status == Running && m == l
    case Do(Sleep(_, m), _) => s.threads[i].status == Woken && m == l
    case _ => false
  }

  /** Thread `i` waits for a critical section that thread `j` is in. */
  ghost predicate WaitsFor(c: Config, s: State, i: nat, j: nat) {
    i < |s.threads| && j < |s.threads| && i != j && exists l :: Wants(c, s, i, l) && l in s.threads[j].held
  }

  /** Thread `i` can take a step of its own; a spurious wakeup is not one. */
  ghost predicate CanStep(c: Config, s: State, i: nat) {
    && Shape(c, s) && i < |s.threads| && s.threads[i].status != Asleep
    && exists g, w, s' :: 0 <= w && Step(c, s, i, g, w, s')
  }

  /** A thread that waits for `l` is in lower ranked sections only. */
  lemma WaitsUpward(c: Config, s: State, i: nat, l: Lock, h: Lock)
    requires AllPlaced(c, s) && Exclusive(s) && i < |s.threads| && Wants(c, s, i, l) && !Free(s, i, l)
    requires h in s.threads[i].held
    ensures Rank(h) < Rank(l)
  {
    assert Placed(c, s, i);
    EntersInOrder(c, i, s.threads[i].point, l, h);
  }

  /** Thread `chain[k]` wants `ls[k]`, and the next thread of the chain is in it. */
  ghost predicate Link(c: Config, s: State, chain: seq<nat>, ls: seq<Lock>, k: nat) {
    && k + 1 < |chain| && k < |ls|
    && chain[k] < |s.threads| && chain[k + 1] < |s.threads| && chain[k] != chain[k + 1]
    && Wants(c, s, chain[k], ls[k]) && ls[k] in s.threads[chain[k + 1]].held
  }

  /** Along a chain of waiting threads the ranks of the wanted sections increase. */
  lemma {:induction false} ChainRises(c: Config, s: State, chain: seq<nat>, ls: seq<Lock>, n: nat)
    requires AllPlaced(c, s) && Exclusive(s) && n < |ls|
    requires forall k :: 0 <= k <= n ==> Link(c, s, chain, ls, k)
    ensures Rank(ls[0]) <= Rank(ls[n])
  {
    if n > 0 {
      ChainRises(c, s, chain, ls, n - 1);
      assert Link(c, s, chain, ls, n - 1) && Link(c, s, chain, ls, n);
      WaitsUpward(c, s, chain[n], ls[n], ls[n - 1]);
    }
  }

  /** No cycle of threads, each waiting for the next. */
  lemma NoCycle(c: Config, s: State, chain: seq<nat>)
    requires AllPlaced(c, s) && Exclusive(s) && 2 <= |chain|
    requires forall k :: 0 <= k < |chain| - 1 ==> WaitsFor(c, s, chain[k], chain[k + 1])
    ensures chain[0] != chain[|chain| - 1]
  {
    var n := |chain| - 1;
    var ls := seq(n, k requires 0 <= k < n => Wanted(c, s, chain[k], chain[k + 1]));
    forall k | 0 <= k <= n - 1 ensures Link(c, s, chain, ls, k) {
      assert ls[k] == Wanted(c, s, chain[k], chain[k + 1]);
    }
    ChainRises(c, s, chain, ls, n - 1);
    assert Link(c, s, chain, ls, 0) && Link(c, s, chain, ls, n - 1);
    if chain[0] == chain[n] {
      WaitsUpward(c, s, chain[0], ls[0], ls[n - 1]);
    }
  }

  ghost function Wanted(c: Config, s: State, i: nat, j: nat): (l: Lock)
    requires WaitsFor(c, s, i, j)
    ensures Wants(c, s, i, l) && l in s.threads[j].held
  {
    var l :| Wants(c, s, i, l) && l in s.threads[j].held;
    l
  }

  /** Where a `Jump` can always go. */
  lemma JumpTarget(c: Config, i: nat, th: Thread) returns (g: Point)
    requires Fits(c, i, th.point) && Instruction(c, i, th.point) == Jump
    requires Carries(th.point) ==> th.hand.Some?
    ensures Successor(c, th.point, g) && Dispatches(th.point, th.hand, g)
  {
    g := Halting(HaltEnter);
    if th.point != Serve(Idle) {
      var final := th.point.final;
      match th.point.send {
        case SendStart =>
          g := Sending(final, if th.hand.value.target.Subscribers? then Announce(th.hand.value.target.topic) else Poll(Single));
        case WalkBegin(t) => g := Sending(final, WalkAt(t, 0));
        case Poll(route) => g := Sending(final, Send(route));
        case Send(route) => g := Sending(final, AfterSend(route));
        case _ =>
      }
    }
  }

  ghost function Successors(c: Config, s: State, i: nat, g: Point, w: nat): State
    requires Shape(c, s) && i < |s.threads| && Guard(c, s, i, g)
  {
    var instr := Instruction(c, i, s.threads[i].point);
    State(if instr.Do? then DataAfter(c, s, i, instr.op) else s.data,
          seq(|s.threads|, j requires 0 <= j < |s.threads| =>
            if j == i then ThreadAfter(c, s, i, g) else Roused(c, instr, w, j, s.threads[j])))
  }

  lemma SomeSleeper(c: Config, s: State, instr: Instr) returns (w: nat)
    ensures WakesOne(c, s, instr, w)
  {
    w := 0;
    if instr.Do? && instr.op.Wake? {
      if j: nat :| j < |s.threads| && SleepsOn(c, j, s.threads[j], instr.op.cv) {
        w := j;
      }
    }
  }

  /** The guard of an instruction other than entering a critical section always holds. */
  lemma GuardHolds(c: Config, s: State, i: nat) returns (g: Point)
    requires Safe(c, s) && i < |s.threads| && s.threads[i].status == Running
    requires Instruction(c, i, s.threads[i].point) != Stop
    requires forall l :: Wants(c, s, i, l) ==> Free(s, i, l)
    ensures Guard(c, s, i, g)
  {
    var th := s.threads[i];
    g := th.point;
    assert Placed(c, s, i) && HandOk(c, s.data.flag, i, th);
    AllDisciplined(c, i, th.point);
    match Instruction(c, i, th.point) {
      case Jump => g := JumpTarget(c, i, th);
      case Do(op, next) =>
        EdgeCarries(c, i, th.point, next);
        if op.Enter? {
          assert Wants(c, s, i, op.lock);
        }
      case _ =>
    }
  }

  /** A thread that is neither asleep, nor finished, nor waiting for a critical section can step:
      no instruction is ever undefined. */
  lemma Unblocked(c: Config, s: State, i: nat)
    requires Safe(c, s) && i < |s.threads| && s.threads[i].status != Asleep
    requires Instruction(c, i, s.threads[i].point) != Stop
    requires forall l :: Wants(c, s, i, l) ==> Free(s, i, l)
    ensures CanStep(c, s, i)
  {
    assert Placed(c, s, i);
    if s.threads[i].status == Running {
      var g := GuardHolds(c, s, i);
      var w := SomeSleeper(c, s, Instruction(c, i, s.threads[i].point));
      assert Exec(c, s, i, g, w, Successors(c, s, i, g, w));
      assert Step(c, s, i, g, w, Successors(c, s, i, g, w));
    } else {
      var l, next := Instruction(c, i, s.threads[i].point).op.lock, Instruction(c, i, s.threads[i].point).next;
      assert Wants(c, s, i, l);
      var s' := s.(threads := s.threads[i := s.threads[i].(point := next, status := Running, held := s.threads[i].held + [l])]);
      assert Resume(c, s, i, s');
      assert Step(c, s, i, next, 0, s');
    }
  }

  /** Whoever waits for a critical section, some thread that is in one can run. */
  lemma HolderRuns(c: Config, s: State, i: nat, l: Lock) returns (j: nat)
    requires Safe(c, s) && i < |s.threads| && Wants(c, s, i, l) && !Free(s, i, l)
    ensures CanStep(c, s, j) && s.threads[j].held != []
    decreases 5 - Rank(l)
  {
    j :| 0 <= j < |s.threads| && j != i && l in s.threads[j].held;
    assert Placed(c, s, j);
    AllDisciplined(c, j, s.threads[j].point);
    if m :| Wants(c, s, j, m) && !Free(s, j, m) {
      WaitsUpward(c, s, j, m, l);
      j := HolderRuns(c, s, j, m);
    } else {
      Unblocked(c, s, j);
    }
  }
}
