/** Runs of a step function over a list of inputs. */
module Folds {
  /** The state after the first `n` inputs. */
  ghost function Fold<S, X>(step: (S, X) -> S, s: S, xs: seq<X>, n: nat): S
    requires n <= |xs|
  {
    if n == 0 then s else step(Fold(step, s, xs, n - 1), xs[n - 1])
  }

  /** What they put out, in order, each in the state its predecessors leave. */
  ghost function Outputs<S, X, Y>(step: (S, X) -> S, out: (S, X) -> seq<Y>, s: S, xs: seq<X>, n: nat): seq<Y>
    requires n <= |xs|
  {
    if n == 0 then [] else Outputs(step, out, s, xs, n - 1) + out(Fold(step, s, xs, n - 1), xs[n - 1])
  }

  lemma {:induction false} FoldPrefix<S, X, Y>(step: (S, X) -> S, out: (S, X) -> seq<Y>, s: S, xs: seq<X>, more: seq<X>, n: nat)
    requires n <= |xs|
    ensures Fold(step, s, xs + more, n) == Fold(step, s, xs, n)
    ensures Outputs(step, out, s, xs + more, n) == Outputs(step, out, s, xs, n)
  {
    if n > 0 {
      FoldPrefix(step, out, s, xs, more, n - 1);
    }
  }

  /** Going on after the first inputs. */
  lemma {:induction false} FoldConcat<S, X, Y>(step: (S, X) -> S, out: (S, X) -> seq<Y>, s: S, xs: seq<X>, more: seq<X>, n: nat)
    requires n <= |more|
    ensures
      var mid := Fold(step, s, xs, |xs|);
      && Fold(step, s, xs + more, |xs| + n) == Fold(step, mid, more, n)
      && Outputs(step, out, s, xs + more, |xs| + n) == Outputs(step, out, s, xs, |xs|) + Outputs(step, out, mid, more, n)
  {
    if n == 0 {
      FoldPrefix(step, out, s, xs, more, |xs|);
    } else {
      FoldConcat(step, out, s, xs, more, n - 1);
      assert (xs + more)[|xs| + n - 1] == more[n - 1];
    }
  }

  /** If each input puts out one thing, these are the things put out. */
  lemma {:induction false} OutputsAre<S, X, Y>(step: (S, X) -> S, out: (S, X) -> seq<Y>, s: S, xs: seq<X>, ys: seq<Y>, n: nat)
    requires n <= |ys| <= |xs|
    requires forall k {:trigger ys[k]} :: 0 <= k < |ys| ==> out(Fold(step, s, xs, k), xs[k]) == [ys[k]]
    ensures Outputs(step, out, s, xs, n) == ys[..n]
  {
    if n > 0 {
      OutputsAre(step, out, s, xs, ys, n - 1);
      assert ys[..n] == ys[..n - 1] + [ys[n - 1]];
    }
  }

  /** The first `n` inputs lead to `now` and have put out `ys`. */
  ghost predicate Upto<S, X, Y>(step: (S, X) -> S, out: (S, X) -> seq<Y>, s: S, xs: seq<X>, n: nat, now: S, ys: seq<Y>) {
    n <= |xs| && now == Fold(step, s, xs, n) && ys == Outputs(step, out, s, xs, n)
  }

  lemma UptoPrefix<S, X, Y>(step: (S, X) -> S, out: (S, X) -> seq<Y>, s: S, xs: seq<X>, more: seq<X>, n: nat, now: S, ys: seq<Y>)
    requires Upto(step, out, s, xs, n, now, ys)
    ensures Upto(step, out, s, xs + more, n, now, ys)
  {
    FoldPrefix(step, out, s, xs, more, n);
  }

  lemma UptoConcat<S, X, Y>(step: (S, X) -> S, out: (S, X) -> seq<Y>, s: S, xs: seq<X>, mid: S, ys: seq<Y>,
                            more: seq<X>, n: nat, now: S, zs: seq<Y>)
    requires Upto(step, out, s, xs, |xs|, mid, ys) && Upto(step, out, mid, more, n, now, zs)
    ensures Upto(step, out, s, xs + more, |xs| + n, now, ys + zs)
  {
    FoldConcat(step, out, s, xs, more, n);
  }
}
