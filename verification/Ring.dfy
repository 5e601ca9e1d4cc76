/** The outgoing buffer: a circular array with a fill index, a use index and a count. */
module Ring {

  /** The fields of the buffer.  `count` is a machine integer, and one run can drive it below
      zero, so it is not a `nat`. */
  datatype Ring<T> = Ring(slots: seq<T>, fillIdx: int, useIdx: int, count: int)

  ghost predicate Indexed<T>(r: Ring<T>) {
    0 <= r.fillIdx < |r.slots| && 0 <= r.useIdx < |r.slots|
  }

  function Next(k: int, capacity: nat): (n: int)
    requires 0 <= k < capacity
    ensures 0 <= n < capacity
    ensures n == if k + 1 < capacity then k + 1 else 0
  {
    assert k + 1 == capacity ==> (k + 1) % capacity == 0;
    assert k + 1 < capacity ==> (k + 1) % capacity == k + 1;
    (k + 1) % capacity
  }

  /** The assignments of `put`. */
  function AfterPut<T>(r: Ring<T>, x: T): Ring<T>
    requires Indexed(r)
  {
    Ring(r.slots[r.fillIdx := x], Next(r.fillIdx, |r.slots|), r.useIdx, r.count + 1)
  }

  function Head<T>(r: Ring<T>): T
    requires Indexed(r)
  {
    r.slots[r.useIdx]
  }

  /** The assignments of `get`. */
  function AfterGet<T>(r: Ring<T>): Ring<T>
    requires Indexed(r)
  {
    r.(useIdx := Next(r.useIdx, |r.slots|), count := r.count - 1)
  }

  /** The slot `k` places after `start`, going round. */
  function Slot(start: int, k: int, capacity: nat): int {
    if start + k < capacity then start + k else start + k - capacity
  }

  /** The indices agree: the fill index is `count` places after the use index. */
  ghost predicate Coherent<T>(r: Ring<T>) {
    && Indexed(r)
    && 0 <= r.count <= |r.slots|
    && r.fillIdx == Slot(r.useIdx, r.count, |r.slots|)
  }

  /** What the buffer holds, oldest first: the `count` slots from the use index, wrapping round. */
  ghost function Contents<T>(r: Ring<T>): (s: seq<T>)
    requires Coherent(r)
    ensures |s| == r.count
  {
    seq(r.count, k requires 0 <= k < r.count => r.slots[Slot(r.useIdx, k, |r.slots|)])
  }

  /** `put` on a buffer that is not full appends. */
  lemma PutAppends<T>(r: Ring<T>, x: T)
    requires Coherent(r) && r.count < |r.slots|
    ensures Coherent(AfterPut(r, x)) && Contents(AfterPut(r, x)) == Contents(r) + [x]
  {
    assert Contents(AfterPut(r, x)) == Contents(r) + [x];
  }

  /** `get` on a buffer that is not empty removes the oldest element. */
  lemma GetRemoves<T>(r: Ring<T>)
    requires Coherent(r) && 0 < r.count
    ensures Coherent(AfterGet(r)) && [Head(r)] + Contents(AfterGet(r)) == Contents(r)
  {
    assert Contents(AfterGet(r)) == Contents(r)[1..];
  }

  /** The source's invariant in modular form. */
  lemma CoherentModulo<T>(r: Ring<T>)
    requires Indexed(r) && 0 <= r.count <= |r.slots|
    ensures Coherent(r) <==> r.fillIdx == (r.useIdx + r.count) % |r.slots|
  {
    Wrap(r.useIdx + r.count, |r.slots|);
  }

  lemma Wrap(a: int, m: nat)
    requires 0 <= a < 2 * m
    ensures a % m == if a < m then a else a - m
  {
    if m <= a {
      assert (a - m + m) % m == (a - m) % m;
    }
  }

  datatype Op<T> = DoPut(x: T) | DoGet

  /** The guards `put` and `get` are called under. */
  ghost predicate Guarded<T>(r: Ring<T>, op: Op<T>) {
    if op.DoPut? then r.count < |r.slots| else 0 < r.count
  }

  /** Runs `ops`, stopping at the first whose guard fails; `.1` is the elements read. */
  ghost function Run<T>(r: Ring<T>, ops: seq<Op<T>>): (Ring<T>, seq<T>)
    requires Coherent(r)
    decreases |ops|
  {
    if ops == [] || !Guarded(r, ops[0]) then (r, [])
    else if ops[0].DoPut? then
      PutAppends(r, ops[0].x);
      Run(AfterPut(r, ops[0].x), ops[1..])
    else
      GetRemoves(r);
      var rest := Run(AfterGet(r), ops[1..]);
      (rest.0, [Head(r)] + rest.1)
  }

  /** The same on a queue bounded by `capacity`. */
  ghost function QueueRun<T>(q: seq<T>, capacity: nat, ops: seq<Op<T>>): (seq<T>, seq<T>)
    decreases |ops|
  {
    if ops == [] then (q, [])
    else if ops[0].DoPut? then
      if |q| < capacity then QueueRun(q + [ops[0].x], capacity, ops[1..]) else (q, [])
    else if q == [] then (q, [])
    else
      var rest := QueueRun(q[1..], capacity, ops[1..]);
      (rest.0, [q[0]] + rest.1)
  }

  /** Over every run the circular array is a bounded FIFO queue: same elements read, same
      elements left, and the indices still agree. */
  lemma {:induction false} RunRefinesQueue<T>(r: Ring<T>, ops: seq<Op<T>>)
    requires Coherent(r)
    ensures var end := Run(r, ops).0; Coherent(end) && |end.slots| == |r.slots|
    ensures QueueRun(Contents(r), |r.slots|, ops) == (Contents(Run(r, ops).0), Run(r, ops).1)
    decreases |ops|
  {
    if ops == [] || !Guarded(r, ops[0]) {
    } else if ops[0].DoPut? {
      PutAppends(r, ops[0].x);
      RunRefinesQueue(AfterPut(r, ops[0].x), ops[1..]);
    } else {
      GetRemoves(r);
      RunRefinesQueue(AfterGet(r), ops[1..]);
      assert Contents(r)[1..] == Contents(AfterGet(r));
    }
  }

  /** The elements put before the first operation whose guard fails. */
  ghost function Inputs<T>(q: seq<T>, capacity: nat, ops: seq<Op<T>>): seq<T>
    decreases |ops|
  {
    if ops == [] then []
    else if ops[0].DoPut? then
      if |q| < capacity then [ops[0].x] + Inputs(q + [ops[0].x], capacity, ops[1..]) else []
    else if q == [] then []
    else Inputs(q[1..], capacity, ops[1..])
  }

  lemma {:induction false} QueueConserves<T>(q: seq<T>, capacity: nat, ops: seq<Op<T>>)
    ensures var end := QueueRun(q, capacity, ops); end.1 + end.0 == q + Inputs(q, capacity, ops)
    decreases |ops|
  {
    if ops == [] {
    } else if ops[0].DoPut? {
      if |q| < capacity {
        QueueConserves(q + [ops[0].x], capacity, ops[1..]);
      }
    } else if q != [] {
      QueueConserves(q[1..], capacity, ops[1..]);
      assert [q[0]] + (q[1..] + Inputs(q[1..], capacity, ops[1..])) == q + Inputs(q[1..], capacity, ops[1..]);
    }
  }

  /** Nothing is lost, duplicated or reordered in the buffer, over every run. */
  lemma RunConserves<T>(r: Ring<T>, ops: seq<Op<T>>)
    requires Coherent(r)
    ensures Coherent(Run(r, ops).0)
    ensures Run(r, ops).1 + Contents(Run(r, ops).0) == Contents(r) + Inputs(Contents(r), |r.slots|, ops)
  {
    RunRefinesQueue(r, ops);
    QueueConserves(Contents(r), |r.slots|, ops);
  }

  /** The buffer as the source updates it.  `put` and `get` do not look at `count`: their callers do. */
  class OutgoingBuffer<T(0)> {
    var slots: array<T>
    var fillIdx: int
    var useIdx: int
    var count: int

    ghost function State(): Ring<T>
      reads this, slots
    {
      Ring(slots[..], fillIdx, useIdx, count)
    }

    constructor (capacity: nat)
      requires 0 < capacity
      ensures fresh(slots) && |State().slots| == capacity
      ensures Coherent(State()) && Contents(State()) == []
    {
      slots := new T[capacity];
      fillIdx, useIdx, count := 0, 0, 0;
    }

    method Put(x: T)
      requires Indexed(State())
      modifies this, slots
      ensures slots == old(slots)
      ensures State() == AfterPut(old(State()), x)
      ensures old(Coherent(State())) && old(count) < slots.Length
              ==> Coherent(State()) && Contents(State()) == old(Contents(State())) + [x]
    {
      ghost var was := State();
      slots[fillIdx] := x;
      fillIdx := (fillIdx + 1) % slots.Length;
      count := count + 1;
      if Coherent(was) && was.count < |was.slots| {
        PutAppends(was, x);
      }
    }

    method Get() returns (x: T)
      requires Indexed(State())
      modifies this
      ensures slots == old(slots)
      ensures x == Head(old(State())) && State() == AfterGet(old(State()))
      ensures old(Coherent(State())) && 0 < old(count)
              ==> Coherent(State()) && [x] + Contents(State()) == old(Contents(State()))
    {
      ghost var was := State();
      x := slots[useIdx];
      useIdx := (useIdx + 1) % slots.Length;
      count := count - 1;
      if Coherent(was) && 0 < was.count {
        GetRemoves(was);
      }
    }
  }
}
