/** Sequences: first occurrences, deletions, and what is left after several. */
module Sequences {
  /** The index of the first `x`. */
  function IndexOf<T(==)>(s: seq<T>, x: T): (k: nat)
    requires x in s
    ensures k < |s| && s[k] == x && forall j :: 0 <= j < k ==> s[j] != x
  {
    if s[0] == x then 0 else 1 + IndexOf(s[1..], x)
  }

  function Without<T>(s: seq<T>, k: nat): seq<T>
    requires k < |s|
  {
    s[..k] + s[k + 1..]
  }

  /** `s` without its first `x`. */
  function RemoveFirst<T(==)>(s: seq<T>, x: T): seq<T> {
    if x in s then Without(s, IndexOf(s, x)) else s
  }

  ghost predicate NoRepeats<T>(s: seq<T>) {
    forall i, j :: 0 <= i < j < |s| ==> s[i] != s[j]
  }

  lemma NoRepeatsWithout<T>(s: seq<T>, k: nat)
    requires NoRepeats(s) && k < |s|
    ensures NoRepeats(Without(s, k)) && |Without(s, k)| == |s| - 1
    ensures forall i :: 0 <= i < |s| - 1 ==> Without(s, k)[i] == s[if i < k then i else i + 1]
  {
  }

  lemma FirstAt<T>(s: seq<T>, x: T, k: nat)
    requires k < |s| && s[k] == x && forall j :: 0 <= j < k ==> s[j] != x
    ensures IndexOf(s, x) == k && x in s && RemoveFirst(s, x) == Without(s, k)
  {
    var m := IndexOf(s, x);
    assert s[m] == x;
  }

  /** Removing the first `x` removes one `x` and nothing else. */
  lemma RemoveFirstCounts<T>(s: seq<T>, x: T)
    ensures multiset(RemoveFirst(s, x)) == multiset(s) - multiset{x}
  {
    if x in s {
      var k := IndexOf(s, x);
      assert s == s[..k] + [x] + s[k + 1..];
    }
  }

  /** `s` without the elements of `gone`. */
  ghost function Survivors<T>(s: seq<T>, gone: set<T>): seq<T> {
    if s == [] then [] else (if s[0] in gone then [] else [s[0]]) + Survivors(s[1..], gone)
  }

  lemma {:induction false} SurvivorsSnoc<T>(s: seq<T>, x: T, gone: set<T>)
    ensures Survivors(s + [x], gone) == Survivors(s, gone) + if x in gone then [] else [x]
  {
    if s != [] {
      assert (s + [x])[1..] == s[1..] + [x];
      SurvivorsSnoc(s[1..], x, gone);
    }
  }

  lemma {:induction false} SurvivorsSubset<T>(s: seq<T>, gone: set<T>)
    ensures forall x :: x in Survivors(s, gone) <==> x in s && x !in gone
  {
    if s != [] {
      SurvivorsSubset(s[1..], gone);
      assert s == [s[0]] + s[1..];
    }
  }

  lemma DropAt<T>(a: seq<T>, x: T, b: seq<T>)
    requires x !in a
    ensures IndexOf(a + [x] + b, x) == |a| && RemoveFirst(a + [x] + b, x) == a + b
  {
    FirstAt(a + [x] + b, x, |a|);
    assert (a + [x] + b)[|a|] == x;
    assert Without(a + [x] + b, |a|) == a + b;
  }

  lemma {:induction false} SurvivorsConcat<T>(a: seq<T>, b: seq<T>, gone: set<T>)
    ensures Survivors(a + b, gone) == Survivors(a, gone) + Survivors(b, gone)
  {
    if a == [] {
      assert a + b == b;
    } else {
      assert (a + b)[1..] == a[1..] + b;
      SurvivorsConcat(a[1..], b, gone);
    }
  }

  lemma {:induction false} SurvivorsAll<T>(s: seq<T>, gone: set<T>)
    requires forall x :: x in s ==> x !in gone
    ensures Survivors(s, gone) == s
  {
    if s != [] {
      SurvivorsAll(s[1..], gone);
    }
  }

  lemma {:induction false} SurvivorsTwice<T>(s: seq<T>, gone: set<T>, more: set<T>)
    ensures Survivors(Survivors(s, gone), more) == Survivors(s, gone + more)
  {
    if s != [] {
      SurvivorsTwice(s[1..], gone, more);
      var rest := Survivors(s[1..], gone);
      assert if s[0] in gone then Survivors(s, gone) == rest else Survivors(s, gone)[1..] == rest;
      assert s[0] in gone + more ==> Survivors(s, gone + more) == Survivors(s[1..], gone + more);
    }
  }

  lemma {:induction false} SurvivorsNoRepeats<T>(s: seq<T>, gone: set<T>)
    requires NoRepeats(s)
    ensures NoRepeats(Survivors(s, gone))
  {
    if s != [] {
      SurvivorsNoRepeats(s[1..], gone);
      SurvivorsSubset(s[1..], gone);
    }
  }

  lemma NoRepeatsAround<T>(a: seq<T>, x: T, b: seq<T>)
    requires NoRepeats(a + [x] + b)
    ensures x !in a && x !in b
  {
    var s := a + [x] + b;
    assert s[|a|] == x;
    forall i | 0 <= i < |a| ensures a[i] != x {
      assert s[i] == a[i];
    }
    forall i | 0 <= i < |b| ensures b[i] != x {
      assert s[|a| + 1 + i] == b[i];
    }
  }

  /** One more deletion takes one element out of the survivors. */
  lemma SurvivorsDrop<T>(s: seq<T>, gone: set<T>, a: seq<T>, x: T, b: seq<T>)
    requires NoRepeats(s) && Survivors(s, gone) == a + [x] + b
    ensures Survivors(s, gone + {x}) == a + b
  {
    SurvivorsNoRepeats(s, gone);
    SurvivorsTwice(s, gone, {x});
    SurvivorsOfOne(a, x, b);
  }

  lemma SurvivorsOfOne<T>(a: seq<T>, x: T, b: seq<T>)
    requires NoRepeats(a + [x] + b)
    ensures Survivors(a + [x] + b, {x}) == a + b
  {
    NoRepeatsAround(a, x, b);
    SurvivorsConcat(a + [x], b, {x});
    SurvivorsSnoc(a, x, {x});
    SurvivorsAll(a, {x});
    SurvivorsAll(b, {x});
    assert a + [] == a;
  }

  /** What holds of one element, and of each from the one before it, holds of those after it. */
  lemma {:induction false} HoldsAlong<T>(s: seq<T>, holds: T -> bool, n: nat, m: nat)
    requires n <= m < |s| && holds(s[n]) && forall i :: n <= i < m && holds(s[i]) ==> holds(s[i + 1])
    ensures holds(s[m])
    decreases m
  {
    if n < m {
      HoldsAlong(s, holds, n, m - 1);
      assert holds(s[m - 1 + 1]);
    }
  }
}
