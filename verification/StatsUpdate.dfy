/** Adding the counters in memory to the file. */
module StatsUpdate {
  import opened CStrings
  import opened StatsFile

  /** A file that is empty or that the parser can read. */
  predicate FileOk(file: string) {
    file == "" || Readable(file)
  }

  const ZERO: Row := Row(0, 0, 0, 0, 0)

  /** The counters that the file stands for. */
  function FileRows(file: string): (rows: seq<Row>)
    requires FileOk(file)
    ensures |rows| == 3
  {
    if file == "" then [ZERO, ZERO, ZERO] else Parsed(file)
  }

  function Sum(a: Row, b: Row): Row {
    Row(Wrap(a.publish + b.publish), Wrap(a.subscribe + b.subscribe), Wrap(a.unsubscribe + b.unsubscribe),
        Wrap(a.topicExists + b.topicExists), Wrap(a.subscriberNumber + b.subscriberNumber))
  }

  function SumRows(a: seq<Row>, b: seq<Row>): (rows: seq<Row>)
    requires |a| == |b| == 3
    ensures |rows| == 3 && forall t :: 0 <= t < 3 ==> rows[t] == Sum(a[t], b[t])
  {
    [Sum(a[0], b[0]), Sum(a[1], b[1]), Sum(a[2], b[2])]
  }

  method ResetStats(rows: array<Row>)
    requires rows.Length == 3
    modifies rows
    ensures rows[..] == [ZERO, ZERO, ZERO]
  {
    for i := 0 to 3
      invariant forall t :: 0 <= t < i ==> rows[t] == ZERO
    {
      rows[i] := rows[i].(publish := 0);
      rows[i] := rows[i].(subscribe := 0);
      rows[i] := rows[i].(unsubscribe := 0);
      rows[i] := rows[i].(topicExists := 0);
      rows[i] := rows[i].(subscriberNumber := 0);
    }
  }

  method AddStats(fileRows: array<Row>, rows: array<Row>)
    requires fileRows != rows && fileRows.Length == rows.Length == 3
    modifies fileRows
    ensures fileRows[..] == SumRows(old(fileRows[..]), rows[..])
  {
    for i := 0 to 3
      invariant forall t :: 0 <= t < 3 ==> fileRows[t] == if t < i then Sum(old(fileRows[t]), rows[t]) else old(fileRows[t])
    {
      var a, b := fileRows[i], rows[i];
      fileRows[i] := fileRows[i].(publish := Wrap(a.publish + b.publish));
      fileRows[i] := fileRows[i].(subscribe := Wrap(a.subscribe + b.subscribe));
      fileRows[i] := fileRows[i].(unsubscribe := Wrap(a.unsubscribe + b.unsubscribe));
      fileRows[i] := fileRows[i].(topicExists := Wrap(a.topicExists + b.topicExists));
      fileRows[i] := fileRows[i].(subscriberNumber := Wrap(a.subscriberNumber + b.subscriberNumber));
    }
  }

  class Storage {
    var text: string

    constructor (text: string)
      ensures this.text == text
    {
      this.text := text;
    }

    /** Reading yields a buffer with the text, or null when the file cannot be opened. */
    method ReadFile(readable: bool) returns (content: array?<char>)
      requires NUL !in text
      ensures content == null <==> !readable
      ensures content != null ==> fresh(content) && Holds(content[..], 0, text)
    {
      if !readable {
        return null;
      }
      content := new char[|text| + 1];
      Write(content, 0, text + [NUL]);
    }

    method OverwriteFile(stats: array<char>, writable: bool, ghost printed: string)
      requires Holds(stats[..], 0, printed)
      modifies this
      ensures text == if writable then printed else old(text)
    {
      if !writable {
        return;
      }
      var n := StrLen(stats, 0, printed);
      assert stats[..][0..0 + n] == stats[..n];
      text := stats[..n];
    }
  }

  /** The file after an update whose file operations succeed as said. */
  function UpdatedFile(file: string, rows: seq<Row>, readable: bool, writable: bool): (file': string)
    requires FileOk(file) && |rows| == 3
  {
    if readable && writable then Printed(SumRows(FileRows(file), rows)) else file
  }

  /** Prints the counters and writes them: the buffer is always large enough. */
  method StringifyAndOverwrite(file: Storage, rows: array<Row>, writable: bool)
    requires rows.Length == 3
    modifies file
    ensures file.text == if writable then Printed(rows[..]) else old(file.text)
  {
    var stats := new char[STATS_SIZE];
    PrintedFits(rows[..]);
    var success := StringifyStats(rows, stats);
    if success {
      file.OverwriteFile(stats, writable, Printed(rows[..]));
    }
  }

  /** update_and_show_stats, without the showing.  When the file cannot be read the counters in memory
      stay; when it cannot be written they are reset all the same. */
  method UpdateStats(file: Storage, rows: array<Row>, readable: bool, writable: bool)
    requires FileOk(file.text) && rows.Length == 3
    modifies file, rows
    ensures file.text == UpdatedFile(old(file.text), old(rows[..]), readable, writable)
    ensures readable && writable && old(file.text) == "" ==> file.text == Printed(old(rows[..]))
    ensures readable && writable && old(file.text) != "" ==>
              file.text == Printed(SumRows(Parsed(old(file.text)), old(rows[..])))
    ensures !readable || !writable ==> file.text == old(file.text)
    ensures rows[..] == if readable then [Row(0, 0, 0, 0, 0), Row(0, 0, 0, 0, 0), Row(0, 0, 0, 0, 0)] else old(rows[..])
  {
    ghost var text, were := file.text, rows[..];
    UpdateAndReset(file, rows, readable, writable);
    UpdatedFileIs(text, were, readable, writable);
  }

  method UpdateAndReset(file: Storage, rows: array<Row>, readable: bool, writable: bool)
    requires FileOk(file.text) && rows.Length == 3
    modifies file, rows
    ensures file.text == UpdatedFile(old(file.text), old(rows[..]), readable, writable)
    ensures rows[..] == if readable then [ZERO, ZERO, ZERO] else old(rows[..])
  {
    var content := file.ReadFile(readable);
    if content == null {
      return;
    }
    ghost var text, were := file.text, rows[..];
    if content[0] == NUL {
      assert text == "";
      assert SumRows(FileRows(text), were) == were;
      StringifyAndOverwrite(file, rows, writable);
    } else {
      AddToFile(file, content, rows, writable);
    }
    ResetStats(rows);
  }

  method AddToFile(file: Storage, content: array<char>, rows: array<Row>, writable: bool)
    requires Readable(file.text) && Holds(content[..], 0, file.text) && rows.Length == 3
    modifies file, content
    ensures file.text == if writable then Printed(SumRows(Parsed(old(file.text)), rows[..])) else old(file.text)
  {
    var fileRows := ParseNew(content, file.text);
    AddStats(fileRows, rows);
    StringifyAndOverwrite(file, fileRows, writable);
  }

  method ParseNew(content: array<char>, ghost text: string) returns (fileRows: array<Row>)
    requires Readable(text) && Holds(content[..], 0, text)
    modifies content
    ensures fresh(fileRows) && fileRows.Length == 3 && fileRows[..] == Parsed(text)
  {
    fileRows := new Row[3](_ => ZERO);
    ParseFileContent(content, fileRows, text);
  }

  lemma FileOfPrinted(sums: seq<Row>)
    requires |sums| == 3
    ensures FileOk(Printed(sums))
    ensures FileRows(Printed(sums)) == [SaturatedRow(sums[0]), SaturatedRow(sums[1]), SaturatedRow(sums[2])]
  {
    PrintedReadsBack(sums);
  }

  lemma RowOfPrinted(text: string, sums: seq<Row>, t: nat)
    requires |sums| == 3 && text == Printed(sums) && t < 3
    ensures FileOk(text) && FileRows(text)[t] == SaturatedRow(sums[t])
  {
    FileOfPrinted(sums);
    RowAt(FileRows(text), sums, t);
  }

  lemma RowAt(rows: seq<Row>, sums: seq<Row>, t: nat)
    requires |sums| == 3 && t < 3 && rows == [SaturatedRow(sums[0]), SaturatedRow(sums[1]), SaturatedRow(sums[2])]
    ensures rows[t] == SaturatedRow(sums[t])
  {
  }

  lemma UpdatedIs(file: string, rows: seq<Row>)
    requires FileOk(file) && |rows| == 3
    ensures UpdatedFile(file, rows, true, true) == Printed(SumRows(FileRows(file), rows))
  {
  }

  /** Nothing is added to the counters of an empty file. */
  lemma UpdatedFileIs(file: string, rows: seq<Row>, readable: bool, writable: bool)
    requires FileOk(file) && |rows| == 3
    ensures UpdatedFile(file, rows, readable, writable) ==
      if !readable || !writable then file else if file == "" then Printed(rows) else Printed(SumRows(Parsed(file), rows))
  {
    SumWithEmpty(rows);
  }

  lemma SumWithEmpty(rows: seq<Row>)
    requires |rows| == 3
    ensures SumRows([ZERO, ZERO, ZERO], rows) == rows
  {
  }

  /** What is read from the file after an update that reads and writes it. */
  lemma UpdatedRows(file: string, rows: seq<Row>, t: nat)
    requires FileOk(file) && |rows| == 3 && t < 3
    ensures
      var file' := UpdatedFile(file, rows, true, true);
      && file' != "" && Readable(file')
      && Parsed(file')[t] == SaturatedRow(if file == "" then rows[t] else Sum(Parsed(file)[t], rows[t]))
  {
    UpdatedIs(file, rows);
    RowOfPrinted(UpdatedFile(file, rows, true, true), SumRows(FileRows(file), rows), t);
    PrintedReadsBack(SumRows(FileRows(file), rows));
    SumWithEmpty(rows);
  }
}
