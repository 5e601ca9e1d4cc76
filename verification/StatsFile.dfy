/** The statistics file: printing it into a buffer of fixed size and parsing it. */
module StatsFile {
  import opened CStrings
  import opened Tokens
  import opened Decimal

  type uint64 = x: int | 0 <= x < 0x1_0000_0000_0000_0000

  /** Unsigned arithmetic wraps round. */
  function Wrap(x: int): (u: uint64)
    ensures 0 <= x < 0x1_0000_0000_0000_0000 ==> u == x
  {
    x % 0x1_0000_0000_0000_0000
  }

  /** The counters of one topic. */
  datatype Row = Row(publish: uint64, subscribe: uint64, unsubscribe: uint64, topicExists: uint64, subscriberNumber: uint64)

  const STATS_SIZE: nat := 400

  function RowText(r: Row): string {
    Numeral(r.publish) + "," + Numeral(r.subscribe) + "," + Numeral(r.unsubscribe) + ","
    + Numeral(r.topicExists) + "," + Numeral(r.subscriberNumber) + "\n"
  }

  function Printed(rows: seq<Row>): string {
    if rows == [] then "" else Printed(rows[..|rows| - 1]) + RowText(rows[|rows| - 1])
  }

  lemma UintFits(n: uint64)
    ensures |Numeral(n)| <= 20
  {
    assert Power(5) == 100_000;
    assert Power(10) == 10_000_000_000;
    assert Power(15) == 1_000_000_000_000_000;
    assert Power(20) == 100_000_000_000_000_000_000;
    NumeralFits(n, 20);
  }

  lemma RowFits(r: Row)
    ensures |RowText(r)| <= 105
  {
    UintFits(r.publish);
    UintFits(r.subscribe);
    UintFits(r.unsubscribe);
    UintFits(r.topicExists);
    UintFits(r.subscriberNumber);
  }

  /** Printing three rows of any counters takes at most 315 characters: it always fits the 400. */
  lemma {:induction false} PrintedFits(rows: seq<Row>)
    ensures |Printed(rows)| <= 105 * |rows|
  {
    if rows != [] {
      PrintedFits(rows[..|rows| - 1]);
      RowFits(rows[|rows| - 1]);
    }
  }

  /** snprintf: prints as much as fits, and a null character, and returns the length of the whole. */
  method Snprintf(stats: array<char>, offset: nat, text: string) returns (written: nat)
    requires offset <= stats.Length && NUL !in text
    modifies stats
    ensures written == |text|
    ensures forall j :: 0 <= j < offset ==> stats[j] == old(stats[j])
    ensures |text| < stats.Length - offset ==> Holds(stats[..], offset, text)
  {
    written := |text|;
    if offset < stats.Length {
      var n := if |text| < stats.Length - offset then |text| else stats.Length - offset - 1;
      Write(stats, offset, text[..n] + [NUL]);
      assert |text| < stats.Length - offset ==> text[..n] == text && stats[..][offset..offset + n] == text;
    }
  }

  lemma RowTextProper(r: Row)
    ensures NUL !in RowText(r)
  {
  }

  lemma HoldsJoin(buf: seq<char>, i: nat, a: string, b: string)
    requires i + |a| <= |buf| && buf[i..i + |a|] == a && NUL !in a && Holds(buf, i + |a|, b)
    ensures Holds(buf, i, a + b)
  {
    assert forall j :: i <= j < i + |a| ==> buf[j] == a[j - i];
  }

  lemma {:induction false} PrintedGrows(rows: seq<Row>, i: nat)
    requires i < |rows|
    ensures Printed(rows[..i + 1]) == Printed(rows[..i]) + RowText(rows[i])
    ensures |Printed(rows[..i + 1])| <= |Printed(rows)|
    decreases |rows| - i
  {
    assert rows[..i + 1][..i] == rows[..i];
    if i + 1 < |rows| {
      PrintedGrows(rows, i + 1);
    } else {
      assert rows[..i + 1] == rows;
    }
  }

  /** One turn of the loop, `before` being the text so far. */
  method AppendRow(stats: array<char>, offset: nat, r: Row, ghost before: string) returns (written: nat)
    requires offset == |before| <= stats.Length && NUL !in before && stats[..offset] == before
    modifies stats
    ensures written == |RowText(r)|
    ensures written < stats.Length - offset ==> Holds(stats[..], 0, before + RowText(r))
  {
    RowTextProper(r);
    written := Snprintf(stats, offset, RowText(r));
    if written < stats.Length - offset {
      assert stats[..][0..offset] == before;
      HoldsJoin(stats[..], 0, before, RowText(r));
    }
  }

  /** Succeeds exactly when the text is shorter than the buffer, and then the buffer holds it. */
  method StringifyStats(rows: array<Row>, stats: array<char>) returns (ok: bool)
    requires rows.Length == 3
    modifies stats
    ensures ok <==> |Printed(rows[..])| < stats.Length
    ensures ok ==> Holds(stats[..], 0, Printed(rows[..]))
  {
    var offset := 0;
    ghost var text := "";
    for i := 0 to 3
      invariant text == Printed(rows[..i]) && offset == |text| <= stats.Length
      invariant i > 0 ==> Holds(stats[..], 0, text)
    {
      PrintedGrows(rows[..], i);
      assert rows[..][..i + 1] == rows[..i + 1] && rows[..][..i] == rows[..i];
      assert i > 0 ==> stats[..offset] == stats[..][0..offset];
      var written := AppendRow(stats, offset, rows[i], text);
      if written >= stats.Length - offset {
        return false;
      }
      text := text + RowText(rows[i]);
      offset := offset + written;
    }
    assert rows[..3] == rows[..];
    if offset < stats.Length {
      stats[offset] := NUL;
      return true;
    } else {
      return false;
    }
  }

  /** Three lines of five numbers each. */
  predicate ThreeLines(lines: seq<string>) {
    |lines| >= 3 && forall i :: 0 <= i < 3 ==> |Parts(lines[i], ',')| >= 5
  }

  /** strtok finds a token in the text whenever it is asked. */
  predicate Readable(text: string) {
    NUL !in text && ThreeLines(Parts(text, '\n'))
  }

  function ParsedRow(numbers: seq<string>): Row
    requires |numbers| >= 5
  {
    Row(Wrap(Strtoll(numbers[0])), Wrap(Strtoll(numbers[1])), Wrap(Strtoll(numbers[2])),
        Wrap(Strtoll(numbers[3])), Wrap(Strtoll(numbers[4])))
  }

  function ParsedLine(line: string): Row
    requires |Parts(line, ',')| >= 5
  {
    ParsedRow(Parts(line, ','))
  }

  function ParsedLines(lines: seq<string>): (rows: seq<Row>)
    requires ThreeLines(lines)
    ensures |rows| == 3
  {
    [ParsedLine(lines[0]), ParsedLine(lines[1]), ParsedLine(lines[2])]
  }

  function Parsed(text: string): (rows: seq<Row>)
    requires Readable(text)
    ensures |rows| == 3
  {
    ParsedLines(Parts(text, '\n'))
  }

  /** strtoll on the string at index `at`. */
  method StrtollAt(buf: array<char>, at: nat, ghost s: string) returns (v: int)
    requires Holds(buf[..], at, s)
    ensures v == Strtoll(s)
  {
    var n := StrLen(buf, at, s);
    assert buf[..][at..at + n] == buf[at..at + n];
    v := Strtoll(buf[at..at + n]);
  }

  method ParseLine(buf: array<char>, at: nat, ghost line: string) returns (row: Row)
    requires Holds(buf[..], at, line) && |Parts(line, ',')| >= 5
    modifies buf
    ensures row == ParsedLine(line)
    ensures forall j :: 0 <= j < buf.Length && !(at <= j < at + |line|) ==> buf[j] == old(buf[j])
  {
    var numbers := TakeTokens(buf, at, ',', 5, line);
    var publish := StrtollAt(buf, numbers[0], Parts(line, ',')[0]);
    var subscribe := StrtollAt(buf, numbers[1], Parts(line, ',')[1]);
    var unsubscribe := StrtollAt(buf, numbers[2], Parts(line, ',')[2]);
    var topicExists := StrtollAt(buf, numbers[3], Parts(line, ',')[3]);
    var subscriberNumber := StrtollAt(buf, numbers[4], Parts(line, ',')[4]);
    row := Row(Wrap(publish), Wrap(subscribe), Wrap(unsubscribe), Wrap(topicExists), Wrap(subscriberNumber));
  }

  /** The lines from number `i` are each at their place in the buffer. */
  predicate LinesAt(buf: seq<char>, at: seq<nat>, lines: seq<string>, i: nat) {
    && |at| == 3 <= |lines|
    && (forall k :: i <= k < 3 ==> Holds(buf, at[k], lines[k]) && |Parts(lines[k], ',')| >= 5)
    && (forall k, m :: 0 <= k < m < 3 ==> at[k] + |lines[k]| < at[m])
  }

  method ParseOne(buf: array<char>, at: seq<nat>, rows: array<Row>, i: nat, ghost lines: seq<string>)
    requires LinesAt(buf[..], at, lines, i) && i < 3 == rows.Length
    modifies buf, rows
    ensures LinesAt(buf[..], at, lines, i + 1)
    ensures rows[i] == ParsedLine(lines[i]) && forall k :: 0 <= k < 3 && k != i ==> rows[k] == old(rows[k])
  {
    ghost var was := buf[..];
    rows[i] := ParseLine(buf, at[i], lines[i]);
    forall k | i < k < 3 ensures Holds(buf[..], at[k], lines[k]) {
      HoldsKept(was, buf[..], at[i], at[i] + |lines[i]|, at[k], lines[k]);
    }
  }

  /** Parses the text, overwriting delimiters in it. */
  method ParseFileContent(buf: array<char>, rows: array<Row>, ghost text: string)
    requires Holds(buf[..], 0, text) && Readable(text) && rows.Length == 3
    modifies buf, rows
    ensures rows[..] == Parsed(text)
  {
    var at := CutLines(buf, text);
    ParseThree(buf, at, rows, Parts(text, '\n'));
  }

  method CutLines(buf: array<char>, ghost text: string) returns (at: seq<nat>)
    requires Holds(buf[..], 0, text) && Readable(text)
    modifies buf
    ensures LinesAt(buf[..], at, Parts(text, '\n'), 0)
  {
    at := TakeTokens(buf, 0, '\n', 3, text);
  }

  method ParseThree(buf: array<char>, at: seq<nat>, rows: array<Row>, ghost lines: seq<string>)
    requires LinesAt(buf[..], at, lines, 0) && ThreeLines(lines) && rows.Length == 3
    modifies buf, rows
    ensures rows[..] == ParsedLines(lines)
  {
    ParseOne(buf, at, rows, 0, lines);
    ParseOne(buf, at, rows, 1, lines);
    ParseOne(buf, at, rows, 2, lines);
  }

  /** What a printed counter is read back as. */
  function Saturated(n: uint64): uint64 {
    if n <= LLONG_MAX then n else LLONG_MAX
  }

  function SaturatedRow(r: Row): Row {
    Row(Saturated(r.publish), Saturated(r.subscribe), Saturated(r.unsubscribe),
        Saturated(r.topicExists), Saturated(r.subscriberNumber))
  }

  function Numerals(r: Row): (numerals: seq<string>)
    ensures |numerals| == 5
    ensures forall k :: 0 <= k < 5 ==> numerals[k] != [] && forall c :: c in numerals[k] ==> IsDigit(c)
  {
    [Numeral(r.publish), Numeral(r.subscribe), Numeral(r.unsubscribe), Numeral(r.topicExists), Numeral(r.subscriberNumber)]
  }

  function LineText(r: Row): string {
    Joined(Numerals(r), ',')
  }

  lemma {:induction false} JoinedProper(parts: seq<string>)
    requires forall k :: 0 <= k < |parts| ==> parts[k] != [] && forall c :: c in parts[k] ==> IsDigit(c)
    ensures forall c :: c in Joined(parts, ',') ==> IsDigit(c) || c == ','
    ensures parts != [] ==> Joined(parts, ',') != []
  {
    if |parts| > 1 {
      JoinedProper(parts[1..]);
    }
  }

  lemma LineOf(numerals: seq<string>)
    requires |numerals| == 5
    requires forall k :: 0 <= k < 5 ==> numerals[k] != [] && forall c :: c in numerals[k] ==> IsDigit(c)
    ensures
      var line := Joined(numerals, ',');
      && line != [] && '\n' !in line && NUL !in line
      && |Parts(line, ',')| == 5 && ParsedLine(line) == ParsedRow(numerals)
  {
    JoinedProper(numerals);
    PartsOfJoined(numerals, ',');
  }

  lemma NumeralsReadBack(r: Row)
    ensures ParsedRow(Numerals(r)) == SaturatedRow(r)
  {
    ReadsBack(r.publish, LLONG_MIN, LLONG_MAX);
    ReadsBack(r.subscribe, LLONG_MIN, LLONG_MAX);
    ReadsBack(r.unsubscribe, LLONG_MIN, LLONG_MAX);
    ReadsBack(r.topicExists, LLONG_MIN, LLONG_MAX);
    ReadsBack(r.subscriberNumber, LLONG_MIN, LLONG_MAX);
  }

  /** A line that the parser reads as this row. */
  predicate LineFor(line: string, r: Row) {
    line != [] && '\n' !in line && NUL !in line && |Parts(line, ',')| == 5 && ParsedLine(line) == SaturatedRow(r)
  }

  lemma LineReadsBack(r: Row)
    ensures LineFor(LineText(r), r)
  {
    LineOf(Numerals(r));
    NumeralsReadBack(r);
  }

  lemma RowTextIs(r: Row)
    ensures RowText(r) == LineText(r) + ['\n']
  {
    var n := Numerals(r);
    assert n[1..][1..] == n[2..] && n[2..][1..] == n[3..] && n[3..][1..] == n[4..];
    assert Joined(n[3..], ',') == n[3] + "," + n[4];
    assert Joined(n[2..], ',') == n[2] + "," + (n[3] + "," + n[4]);
    assert Joined(n[1..], ',') == n[1] + "," + (n[2] + "," + (n[3] + "," + n[4]));
  }

  lemma NumeralsOf(r: Row)
    ensures Parts(LineText(r), ',') ==
      [Numeral(r.publish), Numeral(r.subscribe), Numeral(r.unsubscribe), Numeral(r.topicExists), Numeral(r.subscriberNumber)]
  {
    PartsOfJoined(Numerals(r), ',');
  }

  lemma ThreeLineTexts(a: Row, b: Row, c: Row)
    ensures Parts(Ended([LineText(a), LineText(b), LineText(c)], '\n'), '\n') == [LineText(a), LineText(b), LineText(c)]
  {
    LinePlain(a);
    LinePlain(b);
    LinePlain(c);
    PartsOfEnded([LineText(a), LineText(b), LineText(c)], '\n');
  }

  lemma LinePlain(r: Row)
    ensures LineText(r) != [] && '\n' !in LineText(r)
  {
    LineReadsBack(r);
  }

  /** The file has one line for each topic, in the order of the rows, and these five columns. */
  lemma Columns(rows: seq<Row>, t: nat)
    requires |rows| == 3 && t < 3
    ensures
      var lines, r := Parts(Printed(rows), '\n'), rows[t];
      && |lines| == 3
      && Parts(lines[t], ',') ==
         [Numeral(r.publish), Numeral(r.subscribe), Numeral(r.unsubscribe), Numeral(r.topicExists), Numeral(r.subscriberNumber)]
  {
    PrintedIs(rows);
    ThreeLineTexts(rows[0], rows[1], rows[2]);
    NumeralsOf(rows[t]);
  }

  lemma LinesReadBack(lines: seq<string>, rows: seq<Row>)
    requires |lines| == |rows| == 3 && forall k :: 0 <= k < 3 ==> LineFor(lines[k], rows[k])
    ensures
      var text := Ended(lines, '\n');
      Readable(text) && text != "" && Parsed(text) == [SaturatedRow(rows[0]), SaturatedRow(rows[1]), SaturatedRow(rows[2])]
  {
    PartsOfEnded(lines, '\n');
    EndedProper(lines);
  }

  lemma LinesOf(rows: seq<Row>) returns (lines: seq<string>)
    requires |rows| == 3
    ensures |lines| == 3 && Printed(rows) == Ended(lines, '\n')
    ensures forall k :: 0 <= k < 3 ==> LineFor(lines[k], rows[k])
  {
    lines := [LineText(rows[0]), LineText(rows[1]), LineText(rows[2])];
    PrintedIs(rows);
    LineReadsBack(rows[0]);
    LineReadsBack(rows[1]);
    LineReadsBack(rows[2]);
  }

  /** Printing and parsing: every counter comes back, cut down to the largest signed number. */
  lemma PrintedReadsBack(rows: seq<Row>)
    requires |rows| == 3
    ensures Readable(Printed(rows)) && Printed(rows) != ""
    ensures Parsed(Printed(rows)) == [SaturatedRow(rows[0]), SaturatedRow(rows[1]), SaturatedRow(rows[2])]
  {
    var lines := LinesOf(rows);
    LinesReadBack(lines, rows);
  }

  lemma {:induction false} EndedProper(lines: seq<string>)
    requires forall k :: 0 <= k < |lines| ==> NUL !in lines[k]
    ensures NUL !in Ended(lines, '\n') && (lines != [] ==> Ended(lines, '\n') != [])
  {
    if lines != [] {
      EndedProper(lines[1..]);
    }
  }

  lemma PrintedIs(rows: seq<Row>)
    requires |rows| == 3
    ensures Printed(rows) == Ended([LineText(rows[0]), LineText(rows[1]), LineText(rows[2])], '\n')
  {
    RowTextIs(rows[0]);
    RowTextIs(rows[1]);
    RowTextIs(rows[2]);
    PrintedThree(rows[0], rows[1], rows[2]);
    assert rows == [rows[0], rows[1], rows[2]];
    EndedThree(LineText(rows[0]), LineText(rows[1]), LineText(rows[2]));
  }

  lemma PrintedThree(a: Row, b: Row, c: Row)
    ensures Printed([a, b, c]) == RowText(a) + RowText(b) + RowText(c)
  {
    assert [a, b, c][..2] == [a, b] && [a, b][..1] == [a] && [a][..0] == [];
    assert Printed([a]) == RowText(a);
  }

  lemma EndedThree(a: string, b: string, c: string)
    ensures Ended([a, b, c], '\n') == (a + ['\n']) + (b + ['\n']) + (c + ['\n'])
  {
    assert Ended([c], '\n') == c + ['\n'];
    assert [a, b, c][1..] == [b, c] && [b, c][1..] == [c];
    assert Ended([b, c], '\n') == (b + ['\n']) + (c + ['\n']);
  }

  /** Each counter is below 2^63. */
  predicate Signed(r: Row) {
    && r.publish < 0x8000_0000_0000_0000 && r.subscribe < 0x8000_0000_0000_0000 && r.unsubscribe < 0x8000_0000_0000_0000
    && r.topicExists < 0x8000_0000_0000_0000 && r.subscriberNumber < 0x8000_0000_0000_0000
  }

  lemma SaturatedExact(rows: seq<Row>)
    requires |rows| == 3
    ensures [SaturatedRow(rows[0]), SaturatedRow(rows[1]), SaturatedRow(rows[2])] == rows <==>
      Signed(rows[0]) && Signed(rows[1]) && Signed(rows[2])
  {
    var saturated := [SaturatedRow(rows[0]), SaturatedRow(rows[1]), SaturatedRow(rows[2])];
    assert forall k :: 0 <= k < 3 ==> (SaturatedRow(rows[k]) == rows[k] <==> Signed(rows[k]));
    assert saturated == rows <==> saturated[0] == rows[0] && saturated[1] == rows[1] && saturated[2] == rows[2];
  }

  /** So parsing gives back the same fifteen numbers exactly when none is 2^63 or more. */
  lemma RoundTripExact(rows: seq<Row>)
    requires |rows| == 3
    ensures Readable(Printed(rows))
    ensures Parsed(Printed(rows)) == rows <==> Signed(rows[0]) && Signed(rows[1]) && Signed(rows[2])
  {
    PrintedReadsBack(rows);
    SaturatedExact(rows);
  }
}
