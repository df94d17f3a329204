/** The CSV export: the `esc` field quoting, the comma-joined records and the
    newline-joined document with its header line first (section 2 of RFC 4180). */
module Csv {
  import opened Wrappers

  /** A value of a result row as `esc` receives it: SQL NULL (null or undefined in
      JavaScript), a text column or an integer column. */
  datatype Cell = Missing | Text(s: string) | Number(n: int)

  /** The decimal digits of n. */
  function Digits(n: nat): (r: string)
    ensures r != [] && forall i :: 0 <= i < |r| ==> '0' <= r[i] <= '9'
  {
    if n < 10 then ["0123456789"[n]] else Digits(n / 10) + ["0123456789"[n % 10]]
  }

  /** `String(v)` for a non-null value. */
  function CellText(c: Cell): string
    requires !c.Missing?
  {
    match c
    case Text(s) => s
    case Number(n) => if n < 0 then "-" + Digits(-n) else Digits(n)
  }

  /** `.replace(/"/g, '""')`: every double quote doubled. */
  function DoubleQuotes(s: string): (r: string)
    ensures |r| >= |s|
  {
    if s == [] then []
    else (if s[0] == '"' then "\"\"" else [s[0]]) + DoubleQuotes(s[1..])
  }

  /** Text without a double quote is written between the quotes unchanged, and text
      with one grows. */
  lemma {:induction false} DoubleQuotesKeepsPlainText(s: string)
    ensures '"' !in s ==> DoubleQuotes(s) == s
    ensures '"' in s ==> |DoubleQuotes(s)| > |s|
  {
    if s != [] {
      DoubleQuotesKeepsPlainText(s[1..]);
      assert s == [s[0]] + s[1..];
      assert '"' in s <==> s[0] == '"' || '"' in s[1..];
    }
  }

  /** `esc`: null and undefined become the empty field; any other value is written
      between double quotes with its inner quotes doubled. */
  function Esc(c: Cell): (r: string)
    ensures c.Missing? <==> r == ""
    ensures !c.Missing? ==> |r| >= 2 && r[0] == '"' && r[|r| - 1] == '"'
  {
    if c.Missing? then "" else "\"" + DoubleQuotes(CellText(c)) + "\""
  }

  /** `Array.prototype.join(sep)`. */
  function Join(parts: seq<string>, sep: string): string {
    if parts == [] then ""
    else if |parts| == 1 then parts[0]
    else parts[0] + sep + Join(parts[1..], sep)
  }

  /** `cells.map(esc)`. */
  function Escaped(cells: seq<Cell>): (r: seq<string>)
    ensures |r| == |cells|
  {
    if cells == [] then [] else [Esc(cells[0])] + Escaped(cells[1..])
  }

  /** One data record: `cells.map(esc).join(',')`. */
  function Line(cells: seq<Cell>): string {
    Join(Escaped(cells), ",")
  }

  /** The whole export: the header names joined by commas (not quoted), then one line
      per row, all joined by `\n`. */
  function Document(header: seq<string>, rows: seq<seq<Cell>>): string {
    Join([Join(header, ",")] + seq(|rows|, k requires 0 <= k < |rows| => Line(rows[k])), "\n")
  }

  /** The `csvLines` loop of both CSV exports: push the header line, push one line per
      row, join with `\n`. */
  method BuildCsv(header: seq<string>, rows: seq<seq<Cell>>) returns (csv: string)
    ensures csv == Document(header, rows)
  {
    var csvLines := [Join(header, ",")];
    for i := 0 to |rows|
      invariant csvLines == [Join(header, ",")] + seq(i, k requires 0 <= k < i => Line(rows[k]))
    {
      csvLines := csvLines + [Line(rows[i])];
    }
    csv := Join(csvLines, "\n");
  }

  // ----- Reading a record back -----

  /** A field as a reader of RFC 4180 text sees it: empty, or quoted with its content. */
  datatype Field = Empty | Quoted(content: string)

  /** Reads the rest of a quoted field, s being the text after its opening quote: `""`
      stands for one quote, a lone `"` closes the field. Gives the content and the
      text after the closing quote. */
  function ReadQuoted(s: string): (r: Option<(string, string)>)
    ensures r.Some? ==> |r.value.1| < |s|
    decreases |s|
  {
    if s == [] then None
    else if s[0] == '"' then
      if |s| >= 2 && s[1] == '"' then
        match ReadQuoted(s[2..])
        case None => None
        case Some(p) => Some(("\"" + p.0, p.1))
      else Some(("", s[1..]))
    else
      match ReadQuoted(s[1..])
      case None => None
      case Some(p) => Some(([s[0]] + p.0, p.1))
  }

  /** Splits one record into its fields: comma-separated, each empty or quoted. */
  function ParseLine(s: string): Option<seq<Field>>
    decreases |s|
  {
    if s == [] then Some([Empty])
    else if s[0] == ',' then
      match ParseLine(s[1..])
      case None => None
      case Some(fs) => Some([Empty] + fs)
    else if s[0] == '"' then
      match ReadQuoted(s[1..])
      case None => None
      case Some(p) =>
        if p.1 == [] then Some([Quoted(p.0)])
        else if p.1[0] == ',' then
          match ParseLine(p.1[1..])
          case None => None
          case Some(fs) => Some([Quoted(p.0)] + fs)
        else None
    else None
  }

  /** What a reader should recover from a cell. */
  function FieldOf(c: Cell): Field {
    if c.Missing? then Empty else Quoted(CellText(c))
  }

  function Fields(cells: seq<Cell>): (r: seq<Field>)
    ensures |r| == |cells|
  {
    if cells == [] then [] else [FieldOf(cells[0])] + Fields(cells[1..])
  }

  /** A doubled quote in a quoted body reads as one quote. */
  lemma ReadDoubledQuote(tail: string, text: string, rest: string)
    requires ReadQuoted(tail) == Some((text, rest))
    ensures ReadQuoted("\"\"" + tail) == Some(("\"" + text, rest))
  {
    var s := "\"\"" + tail;
    assert s[0] == '"' && s[1] == '"' && s[2..] == tail;
  }

  /** Any other character of a quoted body reads as itself. */
  lemma ReadPlainChar(ch: char, tail: string, text: string, rest: string)
    requires ch != '"' && ReadQuoted(tail) == Some((text, rest))
    ensures ReadQuoted([ch] + tail) == Some(([ch] + text, rest))
  {
    var s := [ch] + tail;
    assert s[0] == ch && s[1..] == tail;
  }

  /** One character of the body: a doubled quote reads as one quote, any other
      character as itself. */
  lemma ReadQuotedStep(t: string, rest: string)
    requires t != []
    requires ReadQuoted(DoubleQuotes(t[1..]) + "\"" + rest) == Some((t[1..], rest))
    ensures ReadQuoted(DoubleQuotes(t) + "\"" + rest) == Some((t, rest))
  {
    var body := DoubleQuotes(t[1..]);
    var tail := body + "\"" + rest;
    var head := if t[0] == '"' then "\"\"" else [t[0]];
    assert DoubleQuotes(t) == head + body;
    assert DoubleQuotes(t) + "\"" + rest == head + tail;
    assert [t[0]] + t[1..] == t;
    if t[0] == '"' {
      ReadDoubledQuote(tail, t[1..], rest);
    } else {
      ReadPlainChar(t[0], tail, t[1..], rest);
    }
  }

  /** The quoted body written by `esc` reads back as exactly the original text, and the
      reader stops at the closing quote. */
  lemma {:induction false} ReadQuotedEscaped(t: string, rest: string)
    requires rest == [] || rest[0] != '"'
    ensures ReadQuoted(DoubleQuotes(t) + "\"" + rest) == Some((t, rest))
  {
    if t == [] {
      assert DoubleQuotes(t) + "\"" + rest == ['"'] + rest;
    } else {
      ReadQuotedEscaped(t[1..], rest);
      ReadQuotedStep(t, rest);
    }
  }

  lemma {:induction false} LineCons(cells: seq<Cell>)
    requires cells != []
    ensures |cells| == 1 ==> Line(cells) == Esc(cells[0])
    ensures |cells| > 1 ==> Line(cells) == Esc(cells[0]) + "," + Line(cells[1..])
  {
    assert Escaped(cells)[1..] == Escaped(cells[1..]);
  }

  /** A quoted field followed by nothing, or by a comma and a readable remainder. */
  lemma {:induction false} ParseQuotedHead(text: string, tail: string, fs: seq<Field>)
    requires tail == [] || (tail[0] == ',' && ParseLine(tail[1..]) == Some(fs))
    ensures tail == [] ==> ParseLine("\"" + DoubleQuotes(text) + "\"" + tail) == Some([Quoted(text)])
    ensures tail != [] ==> ParseLine("\"" + DoubleQuotes(text) + "\"" + tail) == Some([Quoted(text)] + fs)
  {
    var s := "\"" + DoubleQuotes(text) + "\"" + tail;
    ReadQuotedEscaped(text, tail);
    assert s[0] == '"' && s[1..] == DoubleQuotes(text) + "\"" + tail;
    assert ReadQuoted(s[1..]) == Some((text, tail));
    if tail == [] {
      assert ParseLine(s) == Some([Quoted(text)]);
    } else {
      assert ParseLine(s) == Some([Quoted(text)] + fs);
    }
  }

  /** One escaped cell followed by nothing, or by a comma and a readable remainder. */
  lemma {:induction false} ParseCellHead(c: Cell, tail: string, fs: seq<Field>)
    requires tail == [] || (tail[0] == ',' && ParseLine(tail[1..]) == Some(fs))
    ensures tail == [] ==> ParseLine(Esc(c) + tail) == Some([FieldOf(c)])
    ensures tail != [] ==> ParseLine(Esc(c) + tail) == Some([FieldOf(c)] + fs)
  {
    if c.Missing? {
      assert Esc(c) + tail == tail;
    } else {
      ParseQuotedHead(CellText(c), tail, fs);
    }
  }

  /** A record of several cells reads back when the record after its first cell does. */
  lemma {:induction false} ConsRoundTrip(cells: seq<Cell>)
    requires |cells| > 1 && ParseLine(Line(cells[1..])) == Some(Fields(cells[1..]))
    ensures ParseLine(Line(cells)) == Some(Fields(cells))
  {
    var rest := Line(cells[1..]);
    var tail := "," + rest;
    assert tail[0] == ',' && tail[1..] == rest;
    ParseCellHead(cells[0], tail, Fields(cells[1..]));
    assert Line(cells) == Esc(cells[0]) + tail by {
      LineCons(cells);
    }
  }

  /** Round trip: every record the export writes reads back as its cells, a NULL as an
      empty field and any other value as its exact text, commas and quotes included. */
  lemma {:induction false} LineRoundTrip(cells: seq<Cell>)
    requires cells != []
    ensures ParseLine(Line(cells)) == Some(Fields(cells))
  {
    if |cells| == 1 {
      LineCons(cells);
      assert Line(cells) == Esc(cells[0]) + "";
      assert Fields(cells) == [FieldOf(cells[0])];
      ParseCellHead(cells[0], "", []);
    } else {
      LineRoundTrip(cells[1..]);
      ConsRoundTrip(cells);
    }
  }

  /** The export starts with the header line, and a newline follows it when there are
      rows; without rows it is the header line alone. */
  lemma DocumentStartsWithHeader(header: seq<string>, rows: seq<seq<Cell>>)
    ensures var h := Join(header, ",");
            var d := Document(header, rows);
            |d| >= |h| && d[..|h|] == h &&
            (rows == [] ==> d == h) &&
            (rows != [] ==> |d| > |h| && d[|h|] == '\n')
  {
    var h := Join(header, ",");
    var lines := [h] + seq(|rows|, k requires 0 <= k < |rows| => Line(rows[k]));
    if rows != [] {
      assert Document(header, rows) == h + "\n" + Join(lines[1..], "\n");
    }
  }
}
