/** Mutual exclusion over every run. */
module Locking {
  import opened Program
  import opened Discipline
  import opened Machine

  /** Thread `i` is at one of its points, is in exactly the critical sections of that point (none
      while it waits on a condition variable), and waits only at a sleep. */
  ghost predicate Placed(c: Config, s: State, i: nat)
    requires i < |s.threads|
  {
    var th := s.threads[i];
    && Fits(c, i, th.point)
    && th.held == (if th.status == Running then Held(i, th.point) else [])
    && (th.status != Running ==> Sleeps(Instruction(c, i, th.point)))
  }

  ghost predicate AllPlaced(c: Config, s: State) {
    Shape(c, s) && forall i :: 0 <= i < |s.threads| ==> Placed(c, s, i)
  }

  /** No critical section is held by two threads. */
  ghost predicate Exclusive(s: State) {
    forall i, j, l :: 0 <= i < |s.threads| && 0 <= j < |s.threads| && l in s.threads[i].held && l in s.threads[j].held ==> i == j
  }

  /** What one step may do to the threads: move `i`, and wake sleepers. */
  ghost predicate OnlyMoves(c: Config, s: State, i: nat, s': State)
    requires i < |s.threads|
  {
    && |s'.threads| == |s.threads|
    && forall j :: 0 <= j < |s.threads| && j != i ==>
        s'.threads[j] == s.threads[j]
        || (s.threads[j].status == Asleep && s'.threads[j] == s.threads[j].(status := Woken))
  }

  lemma StepMoves(c: Config, s: State, i: nat, g: Point, w: nat, s': State)
    requires Shape(c, s) && i < |s.threads| && Step(c, s, i, g, w, s')
    ensures OnlyMoves(c, s, i, s')
  {
  }

  lemma StepPlacesSelf(c: Config, s: State, i: nat, g: Point, w: nat, s': State)
    requires AllPlaced(c, s) && i < |s.threads| && Step(c, s, i, g, w, s')
    ensures |s'.threads| == |s.threads| && Placed(c, s', i)
  {
    assert Placed(c, s, i);
    AllDisciplined(c, i, s.threads[i].point);
  }

  lemma StepPlaces(c: Config, s: State, i: nat, g: Point, w: nat, s': State)
    requires AllPlaced(c, s) && i < |s.threads| && Step(c, s, i, g, w, s')
    ensures AllPlaced(c, s')
  {
    StepMoves(c, s, i, g, w, s');
    StepPlacesSelf(c, s, i, g, w, s');
    assert Shape(c, s');
    forall j | 0 <= j < |s'.threads| ensures Placed(c, s', j) {
      assert Placed(c, s, j);
    }
  }

  lemma StepExcludes(c: Config, s: State, i: nat, g: Point, w: nat, s': State)
    requires AllPlaced(c, s) && Exclusive(s) && i < |s.threads| && Step(c, s, i, g, w, s')
    ensures Exclusive(s')
  {
    StepMoves(c, s, i, g, w, s');
    HeldGrowsByFree(c, s, i, g, w, s');
    forall a, b, l | 0 <= a < |s'.threads| && 0 <= b < |s'.threads| && l in s'.threads[a].held && l in s'.threads[b].held
      ensures a == b
    {
      assert s'.threads[if a == i then b else a].held == s.threads[if a == i then b else a].held || a == b;
    }
  }

  /** A section a step adds to a thread was free. */
  lemma HeldGrowsByFree(c: Config, s: State, i: nat, g: Point, w: nat, s': State)
    requires Shape(c, s) && i < |s.threads| && Step(c, s, i, g, w, s')
    ensures |s'.threads| == |s.threads|
    ensures forall l :: l in s'.threads[i].held ==> l in s.threads[i].held || Free(s, i, l)
  {
  }

  /** Threads follow the control flow. */
  lemma StepEdge(c: Config, s: State, i: nat, g: Point, w: nat, s': State)
    requires Shape(c, s) && i < |s.threads| && Step(c, s, i, g, w, s')
    ensures |s'.threads| == |s.threads|
    ensures s.threads[i].status == Asleep ==> s'.threads[i].point == s.threads[i].point
    ensures s.threads[i].status != Asleep ==> Edge(c, i, s.threads[i].point, s'.threads[i].point)
  {
  }
}
