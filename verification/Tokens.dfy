/** strtok: cutting a string in place into the parts between delimiters. */
module Tokens {
  import opened Options
  import opened CStrings

  /** How many delimiters a string begins with. */
  function Leading(s: string, d: char): (n: nat)
    ensures n <= |s| && (n < |s| ==> s[n] != d)
    ensures forall j :: 0 <= j < n ==> s[j] == d
  {
    if s == [] || s[0] != d then 0 else 1 + Leading(s[1..], d)
  }

  /** The index of the first delimiter from `i`, or the end. */
  function EndFrom(s: string, d: char, i: nat): (n: nat)
    requires i <= |s|
    ensures i <= n <= |s| && (n < |s| ==> s[n] == d)
    ensures forall j :: i <= j < n ==> s[j] != d
    decreases |s| - i
  {
    if i == |s| || s[i] == d then i else EndFrom(s, d, i + 1)
  }

  /** Where the first token ends. */
  function TokenEnd(s: string, d: char): (n: nat)
    ensures Leading(s, d) <= n <= |s| && (Leading(s, d) < |s| ==> Leading(s, d) < n)
  {
    EndFrom(s, d, Leading(s, d))
  }

  /** What is left after the first token and its delimiter. */
  function Rest(s: string, d: char): string {
    var n := TokenEnd(s, d);
    if n < |s| then s[n + 1..] else []
  }

  /** The parts of `s` between delimiters, without the empty ones. */
  function Parts(s: string, d: char): (parts: seq<string>)
    decreases |s|
  {
    var k := Leading(s, d);
    if k == |s| then [] else [s[k..TokenEnd(s, d)]] + Parts(Rest(s, d), d)
  }

  /** A first part and its delimiter. */
  lemma PartsFirst(part: string, d: char, tail: string)
    requires part != [] && d !in part
    ensures Parts(part + [d] + tail, d) == [part] + Parts(tail, d)
    ensures Parts(part, d) == [part]
  {
    var s := part + [d] + tail;
    assert s[0] == part[0] != d && s[|part|] == d;
    assert forall j :: 0 <= j < |part| ==> s[j] == part[j];
    assert TokenEnd(s, d) == |part| && s[0..|part|] == part && s[|part| + 1..] == tail;
    assert Leading(part, d) == 0 && TokenEnd(part, d) == |part| && part[0..|part|] == part;
    assert Parts([], d) == [];
  }

  lemma {:induction false} EndShift(d: char, tail: string, i: nat)
    requires i <= |tail|
    ensures EndFrom([d] + tail, d, i + 1) == 1 + EndFrom(tail, d, i)
    decreases |tail| - i
  {
    if i < |tail| && tail[i] != d {
      EndShift(d, tail, i + 1);
    }
  }

  lemma SkipOne(d: char, tail: string)
    ensures Leading([d] + tail, d) == 1 + Leading(tail, d) && TokenEnd([d] + tail, d) == 1 + TokenEnd(tail, d)
  {
    assert ([d] + tail)[1..] == tail;
    EndShift(d, tail, Leading(tail, d));
  }

  lemma SliceShift(d: char, tail: string, k: nat, n: nat)
    requires k <= n <= |tail|
    ensures ([d] + tail)[k + 1..n + 1] == tail[k..n] && (n < |tail| ==> ([d] + tail)[n + 2..] == tail[n + 1..])
  {
  }

  lemma PartsIs(s: string, d: char, k: nat, n: nat, rest: string)
    requires k == Leading(s, d) && n == TokenEnd(s, d) && rest == Rest(s, d)
    ensures k <= n <= |s| && Parts(s, d) == if k == |s| then [] else [s[k..n]] + Parts(rest, d)
  {
  }

  /** A delimiter in front is skipped.  With `PartsFirst` this says what the parts of any string are. */
  lemma PartsSkip(d: char, tail: string)
    ensures Parts([d] + tail, d) == Parts(tail, d) && Parts([], d) == []
  {
    var s, k, n := [d] + tail, Leading(tail, d), TokenEnd(tail, d);
    SkipOne(d, tail);
    SliceShift(d, tail, k, n);
    PartsIs(s, d, k + 1, n + 1, Rest(tail, d));
    PartsIs(tail, d, k, n, Rest(tail, d));
    PartsIs([], d, 0, 0, []);
  }

  method SkipDelimiters(buf: array<char>, from: nat, d: char, ghost s: string) returns (start: nat)
    requires Holds(buf[..], from, s) && d != NUL
    ensures start == from + Leading(s, d)
  {
    start := from;
    while buf[start] == d
      invariant from <= start <= from + Leading(s, d)
      decreases from + |s| - start
    {
      assert start < from + |s| && s[start - from] == buf[..][start];
      start := start + 1;
    }
    assert start < from + |s| ==> s[start - from] == buf[..][start];
  }

  method FindEnd(buf: array<char>, from: nat, d: char, start: nat, ghost s: string) returns (end: nat)
    requires Holds(buf[..], from, s) && d != NUL && from <= start <= from + |s|
    ensures end == from + EndFrom(s, d, start - from)
  {
    end := start;
    while buf[end] != d && buf[end] != NUL
      invariant start <= end <= from + EndFrom(s, d, start - from)
      decreases from + |s| - end
    {
      assert end < from + |s| && s[end - from] == buf[..][end];
      end := end + 1;
    }
    assert end < from + |s| ==> s[end - from] == buf[..][end];
  }

  /** What strtok does to the string `s` at index `from`: `token` is the first part, `next` is where the
      next call goes on. */
  predicate Tokenised(was: seq<char>, now: seq<char>, from: nat, d: char, s: string, token: Option<nat>, next: nat) {
    var k, n := Leading(s, d), TokenEnd(s, d);
    && |now| == |was| && (forall j :: 0 <= j < |was| && !(from <= j < from + |s|) ==> now[j] == was[j])
    && if k == |s| then token == None && now == was && next == from + |s|
       else
         && token == Some(from + k) && Holds(now, from + k, s[k..n])
         && next == from + |s| - |Rest(s, d)| && from + n <= next && Holds(now, next, Rest(s, d))
  }

  /** Cutting a string in two. */
  lemma Cut(was: seq<char>, now: seq<char>, from: nat, s: string, k: nat, n: nat)
    requires Holds(was, from, s) && k <= n <= |s| && |now| == |was|
    requires now == if n < |s| then was[from + n := NUL] else was
    ensures Holds(now, from + k, s[k..n])
    ensures n < |s| ==> Holds(now, from + n + 1, s[n + 1..])
    ensures n == |s| ==> Holds(now, from + n, [])
  {
    assert forall j :: from <= j < from + |s| ==> was[j] == s[j - from];
    assert forall j :: from + k <= j < from + n ==> now[j] == s[k..n][j - from - k];
    assert n < |s| ==> forall j :: from + n + 1 <= j < from + |s| ==> now[j] == s[n + 1..][j - from - n - 1];
  }

  lemma CutTokenises(was: seq<char>, now: seq<char>, from: nat, d: char, s: string)
    requires Holds(was, from, s) && Leading(s, d) < |s|
    requires now == if TokenEnd(s, d) < |s| then was[from + TokenEnd(s, d) := NUL] else was
    ensures
      var n := TokenEnd(s, d);
      Tokenised(was, now, from, d, s, Some(from + Leading(s, d)), if n < |s| then from + n + 1 else from + n)
  {
    Cut(was, now, from, s, Leading(s, d), TokenEnd(s, d));
  }

  method CutAt(buf: array<char>, end: nat, d: char) returns (next: nat)
    requires end < buf.Length
    modifies buf
    ensures buf[..] == if old(buf[end]) == d then old(buf[..])[end := NUL] else old(buf[..])
    ensures next == if old(buf[end]) == d then end + 1 else end
  {
    next := end;
    if buf[end] == d {
      buf[end] := NUL;
      next := end + 1;
    }
  }

  lemma PartsUnfold(s: string, d: char)
    ensures Parts(s, d) == [] <==> Leading(s, d) == |s|
    ensures Leading(s, d) < |s| ==> Parts(s, d)[0] == s[Leading(s, d)..TokenEnd(s, d)]
  {
  }

  /** strtok.  Only characters of `s` are overwritten. */
  method Strtok(buf: array<char>, from: nat, d: char, ghost s: string) returns (token: Option<nat>, next: nat)
    requires Holds(buf[..], from, s) && d != NUL
    modifies buf
    ensures Tokenised(old(buf[..]), buf[..], from, d, s, token, next)
  {
    ghost var was := buf[..];
    CharAt(was, from, s, Leading(s, d));
    var start := SkipDelimiters(buf, from, d, s);
    if buf[start] == NUL {
      token, next := None, start;
    } else {
      token, next := TakeToken(buf, from, d, start, s);
    }
  }

  method TakeToken(buf: array<char>, from: nat, d: char, start: nat, ghost s: string) returns (token: Option<nat>, next: nat)
    requires Holds(buf[..], from, s) && d != NUL && Leading(s, d) < |s| && start == from + Leading(s, d)
    modifies buf
    ensures Tokenised(old(buf[..]), buf[..], from, d, s, token, next)
  {
    ghost var was := buf[..];
    var end := FindEnd(buf, from, d, start, s);
    CharAt(was, from, s, end - from);
    next := CutAt(buf, end, d);
    token := Some(start);
    CutTokenises(was, buf[..], from, d, s);
  }

  /** A string outside the part of the buffer that changes stays. */
  lemma HoldsKept(was: seq<char>, now: seq<char>, lo: nat, hi: nat, p: nat, t: string)
    requires Holds(was, p, t) && |now| == |was| && (p + |t| < lo || hi <= p || hi <= lo)
    requires forall j :: 0 <= j < |was| && !(lo <= j < hi) ==> now[j] == was[j]
    ensures Holds(now, p, t)
  {
    assert now[p..p + |t|] == was[p..p + |t|];
  }

  /** A part at `p`, with what is left of the string, `rest`, at `next`. */
  predicate PartAt(buf: seq<char>, p: nat, part: string, rest: string, next: nat) {
    Holds(buf, p, part) && p + |part| <= next && (rest != [] ==> p + |part| < next)
  }

  lemma TokenIsPart(was: seq<char>, now: seq<char>, from: nat, d: char, s: string, token: Option<nat>, next: nat)
    requires Tokenised(was, now, from, d, s, token, next) && Parts(s, d) != []
    ensures token.Some? && from <= token.value && PartAt(now, token.value, Parts(s, d)[0], Rest(s, d), next)
    ensures next + |Rest(s, d)| == from + |s| && Holds(now, next, Rest(s, d))
    ensures Parts(Rest(s, d), d) == Parts(s, d)[1..]
  {
    PartsUnfold(s, d);
  }

  lemma PartKept(was: seq<char>, now: seq<char>, p: nat, part: string, rest: string, next: nat, rest': string, next': nat)
    requires PartAt(was, p, part, rest, next) && |now| == |was| && next <= next' && next' + |rest'| == next + |rest|
    requires forall j :: 0 <= j < |was| && !(next <= j < next + |rest|) ==> now[j] == was[j]
    ensures PartAt(now, p, part, rest', next')
  {
    HoldsKept(was, now, next, next + |rest|, p, part);
  }

  /** The first of the `parts` of a string begin at `tokens`, and what is left is at `next`. */
  ghost predicate Taken(buf: seq<char>, from: nat, end: nat, d: char, parts: seq<string>, tokens: seq<nat>,
                        rest: string, next: nat) {
    && |tokens| <= |parts| && Parts(rest, d) == parts[|tokens|..]
    && from <= next && next + |rest| == end && Holds(buf, next, rest)
    && (forall k :: 0 <= k < |tokens| ==> from <= tokens[k] && PartAt(buf, tokens[k], parts[k], rest, next))
    && (forall k, m :: 0 <= k < m < |tokens| ==> tokens[k] + |parts[k]| < tokens[m])
  }

  lemma TakenStep(was: seq<char>, now: seq<char>, from: nat, end: nat, d: char, parts: seq<string>, tokens: seq<nat>,
                  rest: string, next: nat, token: Option<nat>, next': nat)
    requires Taken(was, from, end, d, parts, tokens, rest, next) && |tokens| < |parts|
    requires Tokenised(was, now, next, d, rest, token, next')
    ensures token.Some? && Taken(now, from, end, d, parts, tokens + [token.value], Rest(rest, d), next')
  {
    TokenIsPart(was, now, next, d, rest, token, next');
    TakenGrows(was, now, from, end, d, parts, tokens, rest, next, token.value, Rest(rest, d), next');
  }

  lemma TakenGrows(was: seq<char>, now: seq<char>, from: nat, end: nat, d: char, parts: seq<string>, tokens: seq<nat>,
                   rest: string, next: nat, token: nat, rest': string, next': nat)
    requires Taken(was, from, end, d, parts, tokens, rest, next) && |tokens| < |parts| && |now| == |was|
    requires forall j :: 0 <= j < |was| && !(next <= j < next + |rest|) ==> now[j] == was[j]
    requires next <= token && PartAt(now, token, parts[|tokens|], rest', next') && rest != []
    requires next' + |rest'| == end && Holds(now, next', rest') && Parts(rest', d) == parts[|tokens|..][1..]
    ensures Taken(now, from, end, d, parts, tokens + [token], rest', next')
  {
    forall k | 0 <= k < |tokens| ensures PartAt(now, tokens[k], parts[k], rest', next') {
      PartKept(was, now, tokens[k], parts[k], rest, next, rest', next');
    }
  }

  /** `count` calls of strtok. */
  method TakeTokens(buf: array<char>, from: nat, d: char, count: nat, ghost s: string) returns (tokens: seq<nat>)
    requires Holds(buf[..], from, s) && d != NUL && count <= |Parts(s, d)|
    modifies buf
    ensures |tokens| == count
    ensures forall k :: 0 <= k < count ==>
      && from <= tokens[k] && tokens[k] + |Parts(s, d)[k]| <= from + |s| && Holds(buf[..], tokens[k], Parts(s, d)[k])
    ensures forall k, m :: 0 <= k < m < count ==> tokens[k] + |Parts(s, d)[k]| < tokens[m]
    ensures forall j :: 0 <= j < buf.Length && !(from <= j < from + |s|) ==> buf[j] == old(buf[j])
  {
    tokens := [];
    var next := from;
    ghost var rest, parts, start := s, Parts(s, d), buf[..];
    while |tokens| < count
      invariant |tokens| <= count && Taken(buf[..], from, from + |s|, d, parts, tokens, rest, next)
      invariant forall j :: 0 <= j < buf.Length && !(from <= j < from + |s|) ==> buf[..][j] == start[j]
      decreases count - |tokens|
    {
      ghost var was := buf[..];
      var token, next' := Strtok(buf, next, d, rest);
      TakenStep(was, buf[..], from, from + |s|, d, parts, tokens, rest, next, token, next');
      tokens, next, rest := tokens + [token.value], next', Rest(rest, d);
    }
  }

  /** Parts with a delimiter between them. */
  function Joined(parts: seq<string>, d: char): string {
    if parts == [] then [] else if |parts| == 1 then parts[0] else parts[0] + [d] + Joined(parts[1..], d)
  }

  /** Parts with a delimiter after each. */
  function Ended(parts: seq<string>, d: char): string {
    if parts == [] then [] else parts[0] + [d] + Ended(parts[1..], d)
  }

  lemma {:induction false} PartsOfJoined(parts: seq<string>, d: char)
    requires forall k :: 0 <= k < |parts| ==> parts[k] != [] && d !in parts[k]
    ensures Parts(Joined(parts, d), d) == parts
  {
    if |parts| == 1 {
      PartsFirst(parts[0], d, []);
    } else if parts != [] {
      PartsOfJoined(parts[1..], d);
      PartsFirst(parts[0], d, Joined(parts[1..], d));
    }
  }

  lemma {:induction false} PartsOfEnded(parts: seq<string>, d: char)
    requires forall k :: 0 <= k < |parts| ==> parts[k] != [] && d !in parts[k]
    ensures Parts(Ended(parts, d), d) == parts
  {
    if parts != [] {
      PartsOfEnded(parts[1..], d);
      PartsFirst(parts[0], d, Ended(parts[1..], d));
    }
  }
}
