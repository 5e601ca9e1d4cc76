/** Decimal numerals, as the C library prints and reads them. */
module Decimal {
  function Digit(d: nat): (c: char)
    requires d < 10
    ensures '0' <= c <= '9' && c as int - '0' as int == d
  {
    '0' + d as char
  }

  predicate IsDigit(c: char) {
    '0' <= c <= '9'
  }

  function Value(c: char): (d: nat)
    requires IsDigit(c)
    ensures d < 10
  {
    c as int - '0' as int
  }

  /** The numeral of `n`, as `%llu` and `_itoa` print it. */
  function Numeral(n: nat): (s: string)
    ensures 0 < |s| && forall k :: 0 <= k < |s| ==> IsDigit(s[k])
  {
    if n < 10 then [Digit(n)] else Numeral(n / 10) + [Digit(n % 10)]
  }

  function Power(k: nat): nat {
    if k == 0 then 1 else 10 * Power(k - 1)
  }

  /** A numeral fits `k` digits exactly when the number is below ten to the `k`. */
  lemma {:induction false} NumeralFits(n: nat, k: nat)
    requires 0 < k
    ensures |Numeral(n)| <= k <==> n < Power(k)
  {
    if k == 1 {
      assert Power(1) == 10 * Power(0);
    } else if n >= 10 {
      NumeralFits(n / 10, k - 1);
    } else {
      PowerGrows(k);
    }
  }

  lemma {:induction false} PowerGrows(k: nat)
    requires 0 < k
    ensures 10 <= Power(k)
  {
    if k > 1 {
      PowerGrows(k - 1);
    }
  }

  /** The number of leading digits of `s` from index `i`. */
  function DigitsFrom(s: string, i: nat): (n: nat)
    requires i <= |s|
    ensures i + n <= |s|
    decreases |s| - i
  {
    if i < |s| && IsDigit(s[i]) then 1 + DigitsFrom(s, i + 1) else 0
  }

  /** The number that a string of digits stands for. */
  function Number(s: string): nat {
    if s == [] || !IsDigit(s[|s| - 1]) then 0 else 10 * Number(s[..|s| - 1]) + Value(s[|s| - 1])
  }

  lemma {:induction false} NumberOfNumeral(n: nat)
    ensures Number(Numeral(n)) == n
  {
    var s := Numeral(n);
    if n >= 10 {
      NumberOfNumeral(n / 10);
      assert s[..|s| - 1] == Numeral(n / 10);
    } else {
      assert Number(s[..0]) == 0;
    }
  }

  predicate IsSpace(c: char) {
    c == ' ' || '\t' <= c <= '\r'
  }

  function Spaces(s: string, i: nat): (n: nat)
    requires i <= |s|
    ensures i + n <= |s|
    decreases |s| - i
  {
    if i < |s| && IsSpace(s[i]) then 1 + Spaces(s, i + 1) else 0
  }

  function Clamp(v: int, lowest: int, highest: int): int {
    if v < lowest then lowest else if v > highest then highest else v
  }

  /** strtoll and atoi in base ten: white space, a sign, digits, and whatever follows; a number out
      of range becomes the nearest bound. */
  function Read(s: string, lowest: int, highest: int): int {
    var i := Spaces(s, 0);
    var signed := i < |s| && (s[i] == '-' || s[i] == '+');
    var start := if signed then i + 1 else i;
    var number: int := Number(s[start..start + DigitsFrom(s, start)]);
    Clamp(if signed && s[i] == '-' then -number else number, lowest, highest)
  }

  lemma {:induction false} DigitsFromAll(s: string, i: nat)
    requires i <= |s| && forall k :: 0 <= k < |s| ==> IsDigit(s[k])
    ensures DigitsFrom(s, i) == |s| - i
    decreases |s| - i
  {
    if i < |s| {
      DigitsFromAll(s, i + 1);
    }
  }

  /** Reading a printed number gives it back, up to the bound of the type read. */
  lemma ReadsBack(n: nat, lowest: int, highest: nat)
    requires lowest <= 0
    ensures Read(Numeral(n), lowest, highest) == if n <= highest then n else highest
  {
    var s := Numeral(n);
    assert IsDigit(s[0]);
    DigitsFromAll(s, 0);
    assert s[0..0 + |s|] == s;
    NumberOfNumeral(n);
  }

  const LLONG_MIN: int := -0x8000_0000_0000_0000
  const LLONG_MAX: int := 0x7fff_ffff_ffff_ffff
  const INT_MIN: int := -0x8000_0000
  const INT_MAX: int := 0x7fff_ffff

  function Strtoll(s: string): int {
    Read(s, LLONG_MIN, LLONG_MAX)
  }

  function Atoi(s: string): int {
    Read(s, INT_MIN, INT_MAX)
  }
}
