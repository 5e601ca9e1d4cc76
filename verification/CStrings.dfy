/** Null-terminated strings in character buffers. */
module CStrings {
  const NUL: char := '\0'

  /** The buffer holds the string `s` from index `i`, and its null character. */
  predicate Holds(buf: seq<char>, i: nat, s: string) {
    && i + |s| < |buf| && buf[i..i + |s|] == s && buf[i + |s|] == NUL
    && forall j :: i <= j < i + |s| ==> buf[j] != NUL
  }

  /** The character under a pointer into the string. */
  lemma CharAt(buf: seq<char>, from: nat, s: string, k: nat)
    requires Holds(buf, from, s) && k <= |s|
    ensures buf[from + k] == if k < |s| then s[k] else NUL
    ensures buf[from + k] == NUL <==> k == |s|
  {
    assert k < |s| ==> buf[from..from + |s|][k] == s[k];
  }

  lemma SliceAt(buf: seq<char>, from: nat, s: string, i: nat, j: nat)
    requires Holds(buf, from, s) && i <= j <= |s|
    ensures buf[from + i..from + j] == s[i..j]
  {
    assert forall k :: 0 <= k < |s| ==> s[k] == buf[from + k];
  }

  /** strlen. */
  method StrLen(buf: array<char>, i: nat, ghost s: string) returns (n: nat)
    requires Holds(buf[..], i, s)
    ensures n == |s|
  {
    n := 0;
    while buf[i + n] != NUL
      invariant n <= |s| && buf[..][i + n] == buf[i + n]
      decreases |s| - n
    {
      n := n + 1;
    }
  }

  /** memcpy of `n` characters between two buffers. */
  method Copy(to: array<char>, at: nat, from: array<char>, start: nat, n: nat)
    requires to != from && at + n <= to.Length && start + n <= from.Length
    modifies to
    ensures forall j :: 0 <= j < to.Length ==>
      to[j] == if at <= j < at + n then from[start + j - at] else old(to[j])
  {
    for k := 0 to n
      invariant forall j :: 0 <= j < to.Length ==>
        to[j] == if at <= j < at + k then from[start + j - at] else old(to[j])
    {
      to[at + k] := from[start + k];
    }
  }

  /** memcpy of a constant string. */
  method Write(to: array<char>, at: nat, s: string)
    requires at + |s| <= to.Length
    modifies to
    ensures forall j :: 0 <= j < to.Length ==> to[j] == if at <= j < at + |s| then s[j - at] else old(to[j])
  {
    for k := 0 to |s|
      invariant forall j :: 0 <= j < to.Length ==> to[j] == if at <= j < at + k then s[j - at] else old(to[j])
    {
      to[at + k] := s[k];
    }
  }
}
