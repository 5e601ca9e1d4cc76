/** The consumer's walk over a topic's subscribers while the main thread changes the list.  The walk
    leaves the list's critical section for each send, holding nothing but a pointer to the current
    node; between leaving and entering again any number of nodes may be added or freed. */
module Walk {
  import opened Options
  import opened Sequences

  /** A node of the list: its address, and the socket pointer in it. */
  datatype Entry<T(==)> = Entry(id: nat, socket: T)

  /** `Advance` is the consumer entering the critical section, going to the next node, reading its
      socket and leaving again; the others are calls of the main thread. */
  datatype Event<T(==)> = Add(socket: T) | Free(socket: T) | Advance

  /** `unused` is the address of the next node.  `sent` are the nodes whose socket the walk has read,
      `skipped` those freed before the walk came to them, and `dangling` says that the walk has read
      the `next` field of a freed node; these three record what happened. */
  datatype State<T(==)> = State(
    list: seq<Entry<T>>, unused: nat, walker: Option<Entry<T>>,
    sent: seq<Entry<T>>, skipped: set<Entry<T>>, dangling: bool)

  ghost function Sockets<T>(list: seq<Entry<T>>): (s: seq<T>)
    ensures |s| == |list|
    ensures forall k :: 0 <= k < |list| ==> s[k] == list[k].socket
  {
    seq(|list|, k requires 0 <= k < |list| => list[k].socket)
  }

  /** Distinct nodes, all allocated. */
  ghost predicate Listed<T>(list: seq<Entry<T>>, unused: nat) {
    && (forall i, j :: 0 <= i < j < |list| ==> list[i].id != list[j].id)
    && (forall i :: 0 <= i < |list| ==> list[i].id < unused)
  }

  ghost function Carried<T>(walker: Option<Entry<T>>): seq<Entry<T>> {
    if walker.Some? then [walker.value] else []
  }

  /** The node at index `k`, or null past the end. */
  ghost function At<T>(list: seq<Entry<T>>, k: nat): Option<Entry<T>> {
    if k < |list| then Some(list[k]) else None
  }

  /** The walk at its first node. */
  ghost function Begin<T>(list: seq<Entry<T>>, unused: nat): State<T> {
    State(list, unused, At(list, 0), Carried(At(list, 0)), {}, false)
  }

  ghost function Apply<T>(s: State<T>, e: Event<T>): State<T> {
    match e
    case Add(p) => s.(list := [Entry(s.unused, p)] + s.list, unused := s.unused + 1)
    case Free(p) =>
      if p !in Sockets(s.list) then s
      else
        var k := IndexOf(Sockets(s.list), p);
        s.(list := Without(s.list, k),
           skipped := if s.list[k] in s.sent then s.skipped else s.skipped + {s.list[k]})
    case Advance =>
      if s.walker == None then s
      else if s.walker.value !in s.list then s.(walker := None, dangling := true)
      else
        var next := At(s.list, IndexOf(s.list, s.walker.value) + 1);
        s.(walker := next, sent := s.sent + Carried(next))
  }

  ghost function After<T>(s: State<T>, events: seq<Event<T>>): State<T> {
    if events == [] then s
    else Apply(After(s, events[..|events| - 1]), events[|events| - 1])
  }

  /** The event frees the node under the walker: it is the first one with that socket pointer. */
  ghost predicate Hits<T>(s: State<T>, e: Event<T>) {
    && e.Free? && s.walker.Some? && s.walker.value in s.list && s.walker.value.socket == e.socket
    && forall k :: 0 <= k < IndexOf(s.list, s.walker.value) ==> s.list[k].socket != e.socket
  }

  /** The walker is at a node that is still in the list. */
  ghost predicate Sound<T>(s: State<T>) {
    !s.dangling && (s.walker.Some? ==> s.walker.value in s.list)
  }

  /** How many nodes of the list are not ahead of the walker. */
  ghost function Reached<T>(s: State<T>): (m: nat)
    requires Sound(s)
    ensures m <= |s.list|
  {
    if s.walker == None then |s.list| else IndexOf(s.list, s.walker.value) + 1
  }

  /** With `m` nodes not ahead of the walker: what the walk has read, then what lies ahead, is the
      list the walk began with without the nodes skipped, and the nodes not ahead have been read or
      were added after the walk began. */
  ghost predicate Track<T>(initial: seq<Entry<T>>, s: State<T>, m: nat) {
    && m <= |s.list|
    && s.sent + s.list[m..] == Survivors(initial, s.skipped)
    && forall k :: 0 <= k < m ==> s.list[k] in s.sent || s.list[k] !in initial
  }

  ghost predicate OnCourse<T>(initial: seq<Entry<T>>, s: State<T>) {
    && Listed(s.list, s.unused)
    && (forall e :: e in initial ==> e.id < s.unused)
    && (s.walker.Some? ==> s.walker.value.id < s.unused)
    && (Sound(s) ==> Track(initial, s, Reached(s)))
  }

  lemma IndexOfListed<T>(list: seq<Entry<T>>, unused: nat, k: nat)
    requires Listed(list, unused) && k < |list|
    ensures IndexOf(list, list[k]) == k
  {
    FirstAt(list, list[k], k);
  }

  /** What adding a node does to the walker. */
  lemma AddWalker<T>(s: State<T>, p: T)
    requires Listed(s.list, s.unused) && (s.walker.Some? ==> s.walker.value.id < s.unused)
    ensures
      var s' := Apply(s, Add(p));
      && Listed(s'.list, s'.unused) && Sockets(s'.list) == [p] + Sockets(s.list)
      && (Sound(s') <==> Sound(s))
      && (Sound(s') ==> Reached(s') == Reached(s) + 1)
  {
    var s' := Apply(s, Add(p));
    assert forall k :: 1 <= k < |s'.list| ==> s'.list[k] == s.list[k - 1];
    if s.walker.Some? {
      var w := s.walker.value;
      assert w in s'.list <==> w in s.list;
      if w in s.list {
        IndexOfListed(s'.list, s'.unused, IndexOf(s.list, w) + 1);
      }
    }
  }

  lemma AddOnTrack<T>(initial: seq<Entry<T>>, s: State<T>, p: T, m: nat)
    requires Track(initial, s, m) && forall e :: e in initial ==> e.id < s.unused
    ensures Track(initial, Apply(s, Add(p)), m + 1)
  {
    var list := [Entry(s.unused, p)] + s.list;
    assert list[m + 1..] == s.list[m..];
  }

  lemma AddOnCourse<T>(initial: seq<Entry<T>>, s: State<T>, p: T)
    requires OnCourse(initial, s)
    ensures OnCourse(initial, Apply(s, Add(p)))
    ensures Sound(Apply(s, Add(p))) <==> Sound(s)
  {
    AddWalker(s, p);
    if Sound(s) {
      AddOnTrack(initial, s, p, Reached(s));
    }
  }

  /** A list after the node at index `k` is freed. */
  lemma FreeLists<T>(list: seq<Entry<T>>, unused: nat, k: nat)
    requires Listed(list, unused) && k < |list|
    ensures Listed(Without(list, k), unused) && |Without(list, k)| == |list| - 1
    ensures forall i :: 0 <= i < |list| - 1 ==> Without(list, k)[i] == list[if i < k then i else i + 1]
    ensures list[k] !in Without(list, k)
  {
  }

  /** Where a node at index `m` is then. */
  lemma FreeMoves<T>(list: seq<Entry<T>>, unused: nat, k: nat, m: nat)
    requires Listed(list, unused) && k < |list| && m < |list| && k != m
    ensures list[m] in Without(list, k)
    ensures IndexOf(Without(list, k), list[m]) == if k < m then m - 1 else m
  {
    FreeLists(list, unused, k);
    assert Without(list, k)[if k < m then m - 1 else m] == list[m];
    IndexOfListed(Without(list, k), unused, if k < m then m - 1 else m);
  }

  /** A freed node that was behind the walker makes no difference. */
  lemma FreeBehind<T>(initial: seq<Entry<T>>, s: State<T>, p: T, k: nat, m: nat)
    requires Track(initial, s, m) && k < m
    requires p in Sockets(s.list) && IndexOf(Sockets(s.list), p) == k
    ensures Track(initial, Apply(s, Free(p)), m - 1)
  {
    if s.list[k] !in s.sent {
      SurvivorsSame(initial, s.skipped, s.list[k]);
    }
    var s' := Apply(s, Free(p));
    assert s'.list[m - 1..] == s.list[m..];
    assert forall i :: 0 <= i < m - 1 ==> s'.list[i] == s.list[if i < k then i else i + 1];
  }

  lemma {:induction false} SurvivorsSame<T>(s: seq<T>, gone: set<T>, x: T)
    requires x !in s
    ensures Survivors(s, gone + {x}) == Survivors(s, gone)
  {
    if s != [] {
      SurvivorsSame(s[1..], gone, x);
    }
  }

  lemma CutAhead<T>(list: seq<T>, k: nat, m: nat)
    requires m <= k < |list|
    ensures list[m..] == list[m..k] + [list[k]] + list[k + 1..]
    ensures Without(list, k)[m..] == list[m..k] + list[k + 1..]
    ensures forall i :: 0 <= i < m ==> Without(list, k)[i] == list[i]
  {
  }

  lemma Regroup<T>(a: seq<T>, b: seq<T>, x: T, c: seq<T>)
    ensures a + (b + [x] + c) == (a + b) + [x] + c
    ensures a + (b + c) == (a + b) + c
  {
  }

  /** A freed node that was ahead of the walker will not be sent to. */
  lemma FreeAhead<T>(initial: seq<Entry<T>>, s: State<T>, p: T, k: nat, m: nat)
    requires Track(initial, s, m) && NoRepeats(initial) && m <= k
    requires p in Sockets(s.list) && IndexOf(Sockets(s.list), p) == k
    ensures Track(initial, Apply(s, Free(p)), m)
  {
    var b, x, c := s.list[m..k], s.list[k], s.list[k + 1..];
    CutAhead(s.list, k, m);
    Regroup(s.sent, b, x, c);
    SurvivorsDrop(initial, s.skipped, s.sent + b, x, c);
    SurvivorsNoRepeats(initial, s.skipped);
    NoRepeatsAround(s.sent + b, x, c);
    assert x !in s.sent;
  }

  /** What freeing the node at index `k` does to the walker. */
  lemma FreeWalker<T>(s: State<T>, p: T, k: nat)
    requires Listed(s.list, s.unused) && p in Sockets(s.list) && IndexOf(Sockets(s.list), p) == k
    ensures
      var s' := Apply(s, Free(p));
      && (Sound(s') <==> Sound(s) && !Hits(s, Free(p)))
      && (Sound(s') ==> Reached(s') == if k < Reached(s) then Reached(s) - 1 else Reached(s))
  {
    var s' := Apply(s, Free(p));
    FreeLists(s.list, s.unused, k);
    assert forall e :: e in s'.list ==> e in s.list;
    if Sound(s) && s.walker.Some? {
      var m := IndexOf(s.list, s.walker.value);
      assert Hits(s, Free(p)) <==> k == m;
      if k != m {
        FreeMoves(s.list, s.unused, k, m);
      }
    }
  }

  lemma FreeOnCourse<T>(initial: seq<Entry<T>>, unused: nat, s: State<T>, p: T)
    requires OnCourse(initial, s) && Listed(initial, unused)
    ensures OnCourse(initial, Apply(s, Free(p)))
    ensures Sound(Apply(s, Free(p))) <==> Sound(s) && !Hits(s, Free(p))
  {
    if p in Sockets(s.list) {
      var k := IndexOf(Sockets(s.list), p);
      FreeLists(s.list, s.unused, k);
      FreeWalker(s, p, k);
      if Sound(Apply(s, Free(p))) {
        FreeOnTrack(initial, s, p, k, Reached(s));
      }
    }
  }

  lemma FreeOnTrack<T>(initial: seq<Entry<T>>, s: State<T>, p: T, k: nat, m: nat)
    requires Track(initial, s, m) && NoRepeats(initial)
    requires p in Sockets(s.list) && IndexOf(Sockets(s.list), p) == k
    ensures Track(initial, Apply(s, Free(p)), if k < m then m - 1 else m)
  {
    if k < m {
      FreeBehind(initial, s, p, k, m);
    } else {
      FreeAhead(initial, s, p, k, m);
    }
  }

  lemma AdvanceOnTrack<T>(initial: seq<Entry<T>>, s: State<T>, s': State<T>, m: nat)
    requires Track(initial, s, m) && m < |s.list|
    requires s'.list == s.list && s'.skipped == s.skipped && s'.sent == s.sent + [s.list[m]]
    ensures Track(initial, s', m + 1)
  {
    assert s.list[m..] == [s.list[m]] + s.list[m + 1..];
  }

  lemma AdvanceOnCourse<T>(initial: seq<Entry<T>>, s: State<T>)
    requires OnCourse(initial, s)
    ensures OnCourse(initial, Apply(s, Advance))
    ensures Sound(Apply(s, Advance)) <==> Sound(s)
  {
    if Sound(s) && s.walker.Some? {
      var m := Reached(s);
      if m < |s.list| {
        IndexOfListed(s.list, s.unused, m);
        AdvanceOnTrack(initial, s, Apply(s, Advance), m);
      } else {
        assert s.sent + [] == s.sent;
      }
    }
  }

  lemma StepOnCourse<T>(initial: seq<Entry<T>>, unused: nat, s: State<T>, e: Event<T>)
    requires OnCourse(initial, s) && Listed(initial, unused)
    ensures OnCourse(initial, Apply(s, e))
    ensures Sound(Apply(s, e)) <==> Sound(s) && !Hits(s, e)
  {
    match e
    case Add(p) => AddOnCourse(initial, s, p);
    case Free(p) => FreeOnCourse(initial, unused, s, p);
    case Advance => AdvanceOnCourse(initial, s);
  }

  lemma BeginOnCourse<T>(initial: seq<Entry<T>>, unused: nat)
    requires Listed(initial, unused)
    ensures OnCourse(initial, Begin(initial, unused)) && Sound(Begin(initial, unused))
  {
    if initial != [] {
      IndexOfListed(initial, unused, 0);
      assert initial == [initial[0]] + initial[1..];
    }
    SurvivorsAll(initial, {});
  }

  lemma {:induction false} RunOnCourse<T>(initial: seq<Entry<T>>, unused: nat, events: seq<Event<T>>)
    requires Listed(initial, unused)
    ensures OnCourse(initial, After(Begin(initial, unused), events))
  {
    if events == [] {
      BeginOnCourse(initial, unused);
    } else {
      var n := |events| - 1;
      RunOnCourse(initial, unused, events[..n]);
      StepOnCourse(initial, unused, After(Begin(initial, unused), events[..n]), events[n]);
    }
  }

  /** Event `i` of a run frees the node that is then under the walker. */
  ghost predicate HitsAt<T>(start: State<T>, events: seq<Event<T>>, i: nat)
    requires i < |events|
  {
    Hits(After(start, events[..i]), events[i])
  }

  ghost predicate Hit<T>(start: State<T>, events: seq<Event<T>>) {
    exists i :: 0 <= i < |events| && HitsAt(start, events, i)
  }

  lemma HitSnoc<T>(start: State<T>, events: seq<Event<T>>)
    requires events != []
    ensures Hit(start, events) <==> Hit(start, events[..|events| - 1]) || HitsAt(start, events, |events| - 1)
  {
    var n := |events| - 1;
    forall i | 0 <= i < n ensures HitsAt(start, events[..n], i) <==> HitsAt(start, events, i) {
      assert events[..n][..i] == events[..i];
    }
    if i :| 0 <= i < n && HitsAt(start, events, i) {
      assert HitsAt(start, events[..n], i);
    }
  }

  /** A walk goes wrong exactly when some event frees the node under the walker: that the walker's
      node stays in the list, and no freed node is read. */
  lemma {:induction false} SoundUnlessHit<T>(initial: seq<Entry<T>>, unused: nat, events: seq<Event<T>>)
    requires Listed(initial, unused)
    ensures Sound(After(Begin(initial, unused), events)) <==> !Hit(Begin(initial, unused), events)
  {
    var start := Begin(initial, unused);
    if events == [] {
      BeginOnCourse(initial, unused);
    } else {
      var n := |events| - 1;
      SoundUnlessHit(initial, unused, events[..n]);
      RunOnCourse(initial, unused, events[..n]);
      StepOnCourse(initial, unused, After(start, events[..n]), events[n]);
      HitSnoc(start, events);
    }
  }

  /** A walk that has ended, with any number of additions and removals on the way, none of the node
      under the walker: it has sent to the nodes it began with, in list order and once each, except
      those freed before it came to them.  So it has sent to every node that was there from start
      to end, and to no node added later. */
  lemma WalkSendsOnce<T>(initial: seq<Entry<T>>, unused: nat, events: seq<Event<T>>)
    requires Listed(initial, unused) && !Hit(Begin(initial, unused), events)
    requires After(Begin(initial, unused), events).walker == None
    ensures
      var end := After(Begin(initial, unused), events);
      && !end.dangling
      && end.sent == Survivors(initial, end.skipped)
      && NoRepeats(end.sent)
      && (forall e :: e in initial && e in end.list ==> e in end.sent)
      && (forall e :: e in end.sent ==> e in initial)
  {
    RunOnCourse(initial, unused, events);
    SoundUnlessHit(initial, unused, events);
    EndOfWalk(initial, After(Begin(initial, unused), events));
  }

  lemma EndOfWalk<T>(initial: seq<Entry<T>>, end: State<T>)
    requires Track(initial, end, |end.list|) && NoRepeats(initial)
    ensures end.sent == Survivors(initial, end.skipped)
    ensures NoRepeats(end.sent)
    ensures forall e :: e in initial && e in end.list ==> e in end.sent
    ensures forall e :: e in end.sent ==> e in initial
  {
    assert end.sent + [] == end.sent;
    SurvivorsNoRepeats(initial, end.skipped);
    SurvivorsSubset(initial, end.skipped);
  }
}
