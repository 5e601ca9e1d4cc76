/** How a shutdown ends: whether the consumer's last `get` reads an empty buffer is settled once main
    has done its wakes. */
module Closing {
  import opened Program
  import opened Discipline
  import opened Machine
  import opened Locking
  import opened Knowledge
  import opened Flow
  import opened Shutdown

  /** Once main has done its wakes, no thread is at a `put`. */
  ghost predicate NoPuts(c: Config, s: State)
    requires Shape(c, s)
  {
    PassedFill(s.threads[MainThread(c)].point) ==> forall i :: 0 <= i < |s.threads| ==> s.threads[i].point != Ring(RingPut)
  }

  /** The consumer will still call `get`, even if the flag is set. */
  predicate Committed(p: Point) {
    match p
    case Fetch(at) =>
      at == FillEnter || at == FillTest || at == FillFlagEnter || at == FillFlagRead || at == FillWait || at == FillTake
    case _ => false
  }

  /** The consumer will still call `get`, and the buffer is empty. */
  ghost predicate Doomed(c: Config, s: State)
    requires Shape(c, s)
  {
    Committed(Consumer(c, s).point) && s.data.ring.count == 0
  }

  /** No `get` has read an empty buffer, and the consumer is not about to call one. */
  ghost predicate Clean(c: Config, s: State)
    requires Shape(c, s)
  {
    !s.data.stale && !Doomed(c, s)
  }

  lemma StepNoPuts(c: Config, s: State, i: nat, g: Point, w: nat, s': State)
    requires Orderly(c, s) && NoPuts(c, s) && i < |s.threads| && Step(c, s, i, g, w, s')
    ensures Shape(c, s') && NoPuts(c, s')
  {
    var m := MainThread(c);
    StepPlaces(c, s, i, g, w, s');
    StepMoves(c, s, i, g, w, s');
    StepEdge(c, s, i, g, w, s');
    assert Placed(c, s, i) && Placed(c, s, m);
    if PassedFill(s'.threads[m].point) {
      forall j | 0 <= j < |s.threads| ensures s'.threads[j].point != Ring(RingPut) {
        assert Placed(c, s, j);
        if i == m {
          MainStepNoPuts(c, s, g, w, s', j);
        } else if j == i && s.threads[i].status != Asleep {
          NoPutUnderFlag(c, s, i, g, w, s');
        }
      }
    }
  }

  lemma NoPutUnderFlag(c: Config, s: State, i: nat, g: Point, w: nat, s': State)
    requires AllPlaced(c, s) && i < |s.threads| && Step(c, s, i, g, w, s') && s.data.flag && |s'.threads| == |s.threads|
    requires s.threads[i].point != Ring(RingPut)
    ensures s'.threads[i].point != Ring(RingPut)
  {
    assert Placed(c, s, i);
    StepEdge(c, s, i, g, w, s');
    if s.threads[i].status != Asleep && s'.threads[i].point == Ring(RingPut) {
      EdgePut(c, i, s.threads[i].point);
    }
  }

  /** Main is in the buffer's critical section when it passes the last wake, and nobody else is. */
  lemma MainStepNoPuts(c: Config, s: State, g: Point, w: nat, s': State, j: nat)
    requires Orderly(c, s) && NoPuts(c, s) && Step(c, s, MainThread(c), g, w, s') && |s'.threads| == |s.threads|
    requires PassedFill(s'.threads[MainThread(c)].point) && j < |s.threads|
    ensures s'.threads[j].point != Ring(RingPut)
  {
    var m := MainThread(c);
    StepMoves(c, s, m, g, w, s');
    StepEdge(c, s, m, g, w, s');
    assert Placed(c, s, m) && Placed(c, s, j);
    if s.threads[m].status != Asleep {
      EdgePassed(c, s.threads[m].point, s'.threads[m].point, 0);
      if s.threads[m].point == Halting(WakeFill) {
        assert RingLock in s.threads[m].held;
      }
    }
  }

  lemma EdgeCommitted(c: Config, i: nat, p: Point, q: Point)
    requires Fits(c, i, p) && i == ConsumerThread(c) && Edge(c, i, p, q)
    ensures Committed(q) ==> Committed(p) || p == Fetch(FetchRead)
    ensures Committed(p) ==> Committed(q) || p == Fetch(FillTake)
  {
  }

  /** Main stays past its wakes. */
  lemma StepPassed(c: Config, s: State, i: nat, g: Point, w: nat, s': State)
    requires AllPlaced(c, s) && i < |s.threads| && Step(c, s, i, g, w, s') && PassedFill(s.threads[MainThread(c)].point)
    ensures Shape(c, s') && PassedFill(s'.threads[MainThread(c)].point)
  {
    StepPlaces(c, s, i, g, w, s');
    StepMoves(c, s, i, g, w, s');
    StepEdge(c, s, i, g, w, s');
    assert Placed(c, s, i);
  }

  /** From then on a clean state stays clean, and an unclean one unclean. */
  lemma StepKeepsClean(c: Config, s: State, i: nat, g: Point, w: nat, s': State)
    requires Orderly(c, s) && NoPuts(c, s) && i < |s.threads| && Step(c, s, i, g, w, s')
    requires PassedFill(s.threads[MainThread(c)].point)
    ensures Shape(c, s') && (Clean(c, s') <==> Clean(c, s))
  {
    var k := ConsumerThread(c);
    StepPlaces(c, s, i, g, w, s');
    StepMoves(c, s, i, g, w, s');
    assert Placed(c, s, i) && s.threads[i].point != Ring(RingPut);
    StepBuffer(c, s, i, g, w, s');
    if i == k {
      StepEdge(c, s, i, g, w, s');
      if s.threads[i].status != Asleep {
        EdgeCommitted(c, i, s.threads[i].point, s'.threads[i].point);
        EdgeFetchRead(c, s, g, w, s');
      }
    }
  }

  /** With the flag set the consumer does not go round again. */
  lemma EdgeFetchRead(c: Config, s: State, g: Point, w: nat, s': State)
    requires AllPlaced(c, s) && Step(c, s, ConsumerThread(c), g, w, s') && s.data.flag
    ensures |s'.threads| == |s.threads|
    ensures s.threads[ConsumerThread(c)].point == Fetch(FetchRead) ==> !Committed(s'.threads[ConsumerThread(c)].point)
    ensures s.threads[ConsumerThread(c)].point == Fetch(FillTake) ==> s.threads[ConsumerThread(c)].status == Running
    ensures s.threads[ConsumerThread(c)].point == Fetch(FillTake) ==> !Committed(s'.threads[ConsumerThread(c)].point)
  {
    assert Placed(c, s, ConsumerThread(c));
  }

  /** The points of a thread on its way to its end, or there. */
  predicate Leaving(p: Point) {
    match p
    case Quit(at) => at != Unstarted
    case Fetch(at) => at == FinalLeave
    case Sending(final, _) => final
    case _ => false
  }

  /** Threads stay in their loops until the flag is set. */
  ghost predicate NoneLeaves(c: Config, s: State) {
    !s.data.flag ==> forall i :: 0 <= i < |s.threads| ==> !Leaving(s.threads[i].point)
  }

  lemma EdgeLeaving(c: Config, i: nat, p: Point, q: Point)
    requires Fits(c, i, p) && Edge(c, i, p, q) && Leaving(q)
    ensures
      var instr := Instruction(c, i, p);
      Leaving(p) || (instr.If? && instr.test == Flag && q == instr.yes && q != instr.no)
  {
  }

  lemma StepNoneLeaves(c: Config, s: State, i: nat, g: Point, w: nat, s': State)
    requires AllPlaced(c, s) && FlagOk(c, s) && NoneLeaves(c, s) && i < |s.threads| && Step(c, s, i, g, w, s')
    ensures NoneLeaves(c, s')
  {
    StepMoves(c, s, i, g, w, s');
    StepEdge(c, s, i, g, w, s');
    StepFlag(c, s, i, g, w, s');
    assert Placed(c, s, i);
    if !s'.data.flag && s.threads[i].status != Asleep && Leaving(s'.threads[i].point) {
      EdgeLeaving(c, i, s.threads[i].point, s'.threads[i].point);
    }
  }
}
