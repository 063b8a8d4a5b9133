/** The quoting CSV printer, and a reader for the format of RFC 4180 section 2 with LF line ends. */
module Csv {
  import opened Options

  datatype Column = Column(key: string, title: string)

  /** A row object; a key that is missing or null is not in the map. */
  type Row = map<string, string>

  // ---- The printer ------------------------------------------------------------------------

  predicate NeedsQuotes(s: string) {
    '"' in s || ',' in s || '\n' in s
  }

  function DoubleQuotes(s: string): string {
    if s == "" then ""
    else (if s[0] == '"' then "\"\"" else [s[0]]) + DoubleQuotes(s[1..])
  }

  function Escape(s: string): string {
    if NeedsQuotes(s) then "\"" + DoubleQuotes(s) + "\"" else s
  }

  /** Only a cell with a quote, a comma or a newline is printed with a quote in front, every other as
      it is; one without quotes of its own is merely enclosed. */
  lemma QuotesOnlyWhereNeeded(s: string)
    ensures ('"' in s || ',' in s || '\n' in s) <==> Escape(s) != "" && Escape(s)[0] == '"'
    ensures Escape(s) == s <==> '"' !in s && ',' !in s && '\n' !in s
    ensures '"' !in s && (',' in s || '\n' in s) ==> Escape(s) == "\"" + s + "\""
  {
    if NeedsQuotes(s) { DoublingLengthens(s); } else if s != "" { assert s[0] in s; }
    if '"' !in s { NothingDoubled(s); }
  }

  lemma {:induction false} NothingDoubled(s: string)
    requires '"' !in s
    ensures DoubleQuotes(s) == s
  {
    if s == "" {
    } else {
      NothingDoubled(s[1..]);
    }
  }

  lemma {:induction false} DoublingLengthens(s: string)
    ensures |DoubleQuotes(s)| >= |s|
  {
    if s == "" {
    } else {
      DoublingLengthens(s[1..]);
    }
  }

  function Join(parts: seq<string>, separator: char): string {
    if parts == [] then ""
    else if |parts| == 1 then parts[0]
    else parts[0] + [separator] + Join(parts[1..], separator)
  }

  function Line(cells: seq<string>): string {
    Join(seq(|cells|, i requires 0 <= i < |cells| => Escape(cells[i])), ',')
  }

  function Cells(row: Row, columns: seq<Column>): seq<string> {
    seq(|columns|, i requires 0 <= i < |columns| => if columns[i].key in row then row[columns[i].key] else "")
  }

  function Labels(columns: seq<Column>): seq<string> {
    seq(|columns|, i requires 0 <= i < |columns| => columns[i].title)
  }

  function Table(rows: seq<Row>, columns: seq<Column>): seq<seq<string>> {
    seq(|rows|, i requires 0 <= i < |rows| => Cells(rows[i], columns))
  }

  function ToCsv(rows: seq<Row>, columns: seq<Column>, includeHeader: bool): string {
    var rowLines := seq(|rows|, i requires 0 <= i < |rows| => Line(Cells(rows[i], columns)));
    if !includeHeader then Join(rowLines, '\n') else Join([Line(Labels(columns))] + rowLines, '\n')
  }

  // ---- The same text, line by line --------------------------------------------------------

  /** Every record on a line of its own, each line ended. */
  function Lines(records: seq<seq<string>>): string {
    if records == [] then "" else Line(records[0]) + "\n" + Lines(records[1..])
  }

  lemma {:induction false} LinesAppend(a: seq<seq<string>>, b: seq<seq<string>>)
    ensures Lines(a + b) == Lines(a) + Lines(b)
  {
    if a == [] {
      assert a + b == b;
    } else {
      assert (a + b)[1..] == a[1..] + b;
      LinesAppend(a[1..], b);
    }
  }

  lemma {:induction false} JoinedLines(lines: seq<string>, records: seq<seq<string>>)
    requires |lines| == |records| > 0
    requires forall i | 0 <= i < |lines| :: lines[i] == Line(records[i])
    ensures Join(lines, '\n') + "\n" == Lines(records)
  {
    if |lines| == 1 {
      assert Lines(records[1..]) == "";
    } else {
      JoinedLines(lines[1..], records[1..]);
    }
  }

  /** With its newline, a printed table is its lines, under the header if there is one. */
  lemma PrintedLines(rows: seq<Row>, columns: seq<Column>)
    ensures ToCsv(rows, columns, true) + "\n" == Lines([Labels(columns)] + Table(rows, columns))
    ensures rows != [] ==> ToCsv(rows, columns, false) + "\n" == Lines(Table(rows, columns))
  {
    var rowLines := seq(|rows|, i requires 0 <= i < |rows| => Line(Cells(rows[i], columns)));
    JoinedLines([Line(Labels(columns))] + rowLines, [Labels(columns)] + Table(rows, columns));
    if rows != [] { JoinedLines(rowLines, Table(rows, columns)); }
  }

  // ---- The reader -------------------------------------------------------------------------

  /** Where the reader stands in a field: before it, in a bare one, inside quotes, or just after
      a quote that either closes the field or is the first of two. */
  datatype Mode = Start | Bare | Quoted | AfterQuote

  datatype Reader =
    | Reading(mode: Mode, field: string, record: seq<string>, records: seq<seq<string>>)
    | Rejected

  function AtStart(record: seq<string>, records: seq<seq<string>>): Reader {
    Reading(Start, "", record, records)
  }

  function Read(r: Reader, c: char): Reader {
    if r.Rejected? then Rejected
    else if r.mode == Quoted then
      if c == '"' then r.(mode := AfterQuote) else r.(field := r.field + [c])
    else if c == ',' then AtStart(r.record + [r.field], r.records)
    else if c == '\n' then AtStart([], r.records + [r.record + [r.field]])
    else if c == '"' then
      match r.mode
      case Start => r.(mode := Quoted)
      case AfterQuote => r.(mode := Quoted, field := r.field + [c])
      case _ => Rejected
    else if r.mode == AfterQuote then Rejected
    else r.(mode := Bare, field := r.field + [c])
  }

  function Feed(r: Reader, text: string): Reader
    decreases text
  {
    if text == "" then r else Feed(Read(r, text[0]), text[1..])
  }

  /** The last line may do without its line end. */
  function Parse(text: string): Option<seq<seq<string>>> {
    var r := Feed(AtStart([], []), text);
    if r.Rejected? || r.mode == Quoted then None
    else if r == AtStart([], r.records) then Some(r.records)
    else Some(r.records + [r.record + [r.field]])
  }

  lemma {:induction false} FeedAppend(r: Reader, a: string, b: string)
    ensures Feed(r, a + b) == Feed(Feed(r, a), b)
    decreases a
  {
    if a == "" {
      assert a + b == b;
    } else {
      assert (a + b)[1..] == a[1..] + b;
      FeedAppend(Read(r, a[0]), a[1..], b);
    }
  }

  /** The reader has taken in the whole of v and waits for a comma or a line end. */
  predicate Holds(r: Reader, v: string, record: seq<string>, records: seq<seq<string>>) {
    r.Reading? && r.mode != Quoted && r.field == v && r.record == record && r.records == records
  }

  lemma {:induction false} FeedBare(mode: Mode, before: string, s: string,
                                    record: seq<string>, records: seq<seq<string>>)
    requires !NeedsQuotes(s) && (mode == Start || mode == Bare)
    ensures Holds(Feed(Reading(mode, before, record, records), s), before + s, record, records)
    decreases s
  {
    if s == "" {
      assert before + s == before;
    } else {
      assert s[0] in s && forall c | c in s[1..] :: c in s;
      FeedBare(Bare, before + [s[0]], s[1..], record, records);
      assert before + [s[0]] + s[1..] == before + s;
    }
  }

  lemma {:induction false} FeedQuoted(before: string, s: string, record: seq<string>, records: seq<seq<string>>)
    ensures Feed(Reading(Quoted, before, record, records), DoubleQuotes(s))
            == Reading(Quoted, before + s, record, records)
    decreases s
  {
    if s == "" {
      assert before + s == before;
    } else {
      var head := if s[0] == '"' then "\"\"" else [s[0]];
      var r := Reading(Quoted, before, record, records);
      FeedAppend(r, head, DoubleQuotes(s[1..]));
      FeedHead(before, s[0], record, records);
      FeedQuoted(before + [s[0]], s[1..], record, records);
      assert before + [s[0]] + s[1..] == before + s;
    }
  }

  lemma FeedHead(before: string, c: char, record: seq<string>, records: seq<seq<string>>)
    ensures Feed(Reading(Quoted, before, record, records), if c == '"' then "\"\"" else [c])
            == Reading(Quoted, before + [c], record, records)
  {
    var r := Reading(Quoted, before, record, records);
    if c == '"' {
      assert Feed(r, "\"\"") == Feed(Read(r, '"'), "\"") == Feed(Read(Read(r, '"'), '"'), "");
    } else {
      assert Feed(r, [c]) == Feed(Read(r, c), "");
    }
  }

  /** Whatever a cell holds, its printed form reads back as that cell. */
  lemma FeedCell(v: string, record: seq<string>, records: seq<seq<string>>)
    ensures Holds(Feed(AtStart(record, records), Escape(v)), v, record, records)
  {
    var r := AtStart(record, records);
    if NeedsQuotes(v) {
      FeedAppend(r, "\"" + DoubleQuotes(v), "\"");
      FeedAppend(r, "\"", DoubleQuotes(v));
      assert Feed(r, "\"") == Feed(Read(r, '"'), "");
      FeedQuoted("", v, record, records);
      var q := Reading(Quoted, v, record, records);
      assert "" + v == v;
      assert Feed(q, "\"") == Feed(Read(q, '"'), "");
    } else {
      FeedBare(Start, "", v, record, records);
      assert "" + v == v;
    }
  }

  lemma CellThenComma(v: string, record: seq<string>, records: seq<seq<string>>)
    ensures Feed(AtStart(record, records), Escape(v) + ",") == AtStart(record + [v], records)
  {
    FeedCell(v, record, records);
    var r := Feed(AtStart(record, records), Escape(v));
    FeedAppend(AtStart(record, records), Escape(v), ",");
    assert Feed(r, ",") == Feed(Read(r, ','), "");
  }

  lemma CellThenLineEnd(v: string, record: seq<string>, records: seq<seq<string>>)
    ensures Feed(AtStart(record, records), Escape(v) + "\n") == AtStart([], records + [record + [v]])
  {
    FeedCell(v, record, records);
    var r := Feed(AtStart(record, records), Escape(v));
    FeedAppend(AtStart(record, records), Escape(v), "\n");
    assert Feed(r, "\n") == Feed(Read(r, '\n'), "");
  }

  /** A printed record, its line ended, reads back as that record. */
  lemma {:induction false} FeedLine(done: seq<string>, cells: seq<string>, records: seq<seq<string>>)
    requires cells != []
    ensures Feed(AtStart(done, records), Line(cells) + "\n") == AtStart([], records + [done + cells])
    decreases cells
  {
    hide Read, Escape;
    if |cells| == 1 {
      assert Line(cells) == Escape(cells[0]);
      CellThenLineEnd(cells[0], done, records);
      assert done + cells == done + [cells[0]];
    } else {
      LineSplits(cells);
      var first, rest := Escape(cells[0]) + ",", Line(cells[1..]) + "\n";
      assert Line(cells) + "\n" == first + rest;
      FeedAppend(AtStart(done, records), first, rest);
      CellThenComma(cells[0], done, records);
      FeedLine(done + [cells[0]], cells[1..], records);
      assert done + [cells[0]] + cells[1..] == done + cells;
    }
  }

  lemma LineSplits(cells: seq<string>)
    requires |cells| > 1
    ensures Line(cells) == Escape(cells[0]) + "," + Line(cells[1..])
  {
    var all := seq(|cells|, i requires 0 <= i < |cells| => Escape(cells[i]));
    var rest := cells[1..];
    assert all[1..] == seq(|rest|, i requires 0 <= i < |rest| => Escape(rest[i]));
  }

  lemma {:induction false} FeedLines(before: seq<seq<string>>, records: seq<seq<string>>)
    requires forall i | 0 <= i < |records| :: records[i] != []
    ensures Feed(AtStart([], before), Lines(records)) == AtStart([], before + records)
    decreases records
  {
    hide Line, Read;
    if records == [] {
      assert before + records == before;
    } else {
      var first := Line(records[0]) + "\n";
      FeedAppend(AtStart([], before), first, Lines(records[1..]));
      FeedLine([], records[0], before);
      assert [] + records[0] == records[0];
      FeedLines(before + [records[0]], records[1..]);
      assert before + [records[0]] + records[1..] == before + records;
    }
  }

  lemma LinesReadBack(records: seq<seq<string>>)
    requires forall i | 0 <= i < |records| :: records[i] != []
    ensures Parse(Lines(records)) == Some(records)
  {
    FeedLines([], records);
    assert [] + records == records;
  }

  /** What is printed and ended with a newline reads back as the header and exactly the rows,
      whatever commas, quotes and line ends the cells contain. */
  lemma PrintedTablesReadBack(rows: seq<Row>, columns: seq<Column>)
    requires columns != []
    ensures Parse(ToCsv(rows, columns, true) + "\n") == Some([Labels(columns)] + Table(rows, columns))
  {
    PrintedLines(rows, columns);
    LinesReadBack([Labels(columns)] + Table(rows, columns));
  }
}
