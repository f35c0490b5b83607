/**
 * CSV export. `lib/reports.ts` and the reports page each have a `toCSV`:
 * one line of headers, then one line per row holding the row's value under
 * each header, fields joined by commas and lines by line feeds. A field with
 * a comma, a double quote or a line feed is wrapped in double quotes with its
 * quotes doubled, as section 2 of RFC 4180 describes. The page escapes the
 * header line too; the library writes it as it is.
 *
 * A row is a dictionary from column name to the text `String(value)` gives;
 * `None` stands for `null` or `undefined`, and so does a missing key.
 */
module Csv {
  import opened Wrappers
  import opened Text

  type Row = map<string, Option<string>>

  /** The value under `header`, `None` when the row has no such key. */
  function Cell(row: Row, header: string): Option<string> {
    if header in row then row[header] else None
  }

  predicate NeedsQuoting(s: string) {
    ',' in s || '"' in s || '\n' in s
  }

  /** Every double quote written twice. */
  function DoubleQuotes(s: string): (r: string)
    ensures |r| >= |s|
  {
    if s == [] then []
    else (if s[0] == '"' then "\"\"" else [s[0]]) + DoubleQuotes(s[1..])
  }

  /** One field's text: quoted, with quotes doubled, when it holds a separator or a quote. */
  function Escape(s: string): string {
    if NeedsQuoting(s) then "\"" + DoubleQuotes(s) + "\"" else s
  }

  /** The page's `esc`: missing values print as the empty string, then `Escape`. */
  function Esc(v: Option<string>): string {
    Escape(if v.None? then "" else v.value)
  }

  /** The library's field: missing values print as the empty string, anything else through `Escape`. */
  function LibField(v: Option<string>): string {
    if v.None? then "" else Escape(v.value)
  }

  /** The two field encoders agree on every value. */
  lemma FieldEncodersAgree(v: Option<string>)
    ensures LibField(v) == Esc(v)
  {
  }

  /** The printed text of a row's values, one per header (missing ones empty). */
  function Values(row: Row, headers: seq<string>): (values: seq<string>)
    ensures |values| == |headers|
    ensures forall j :: 0 <= j < |headers| ==>
      values[j] == if Cell(row, headers[j]).Some? then Cell(row, headers[j]).value else ""
  {
    seq(|headers|, j requires 0 <= j < |headers| => if Cell(row, headers[j]).Some? then Cell(row, headers[j]).value else "")
  }

  function EscapeAll(fields: seq<string>): (r: seq<string>)
    ensures |r| == |fields|
  {
    if fields == [] then [] else [Escape(fields[0])] + EscapeAll(fields[1..])
  }

  /** One CSV line from field texts. */
  function Line(fields: seq<string>): string {
    Join(EscapeAll(fields), ',')
  }

  /** A row's line as the reader sees it: its values under the headers, each escaped. */
  function RowLine(row: Row, headers: seq<string>): string {
    Line(Values(row, headers))
  }

  /** The page's row line: `headers.map(h => esc(row[h])).join(',')`. */
  function PageRowLine(row: Row, headers: seq<string>): string {
    Join(seq(|headers|, j requires 0 <= j < |headers| => Esc(Cell(row, headers[j]))), ',')
  }

  /** The library's row line: each header's value through its own field encoder. */
  function LibRowLine(row: Row, headers: seq<string>): string {
    Join(seq(|headers|, j requires 0 <= j < |headers| => LibField(Cell(row, headers[j]))), ',')
  }

  /** The page's `toCSV`: the escaped header line, then a line per row. */
  function PageCsv(rows: seq<Row>, headers: seq<string>): string {
    Join([Line(headers)] + seq(|rows|, i requires 0 <= i < |rows| => PageRowLine(rows[i], headers)), '\n')
  }

  /** The library's `toCSV`: the header line unescaped, then a line per row. */
  function LibCsv(rows: seq<Row>, headers: seq<string>): string {
    Join([Join(headers, ',')] + seq(|rows|, i requires 0 <= i < |rows| => LibRowLine(rows[i], headers)), '\n')
  }

  lemma {:induction false} EscapeAllAt(fields: seq<string>)
    ensures forall j :: 0 <= j < |fields| ==> EscapeAll(fields)[j] == Escape(fields[j])
  {
    if fields != [] {
      EscapeAllAt(fields[1..]);
      assert forall j :: 1 <= j < |fields| ==> EscapeAll(fields)[j] == EscapeAll(fields[1..])[j - 1];
    }
  }

  /** Both exports write a row as the reader's line: the escaped values under the headers. */
  lemma RowLinesAgree(row: Row, headers: seq<string>)
    ensures PageRowLine(row, headers) == RowLine(row, headers)
    ensures LibRowLine(row, headers) == RowLine(row, headers)
  {
    var values := Values(row, headers);
    var page := seq(|headers|, j requires 0 <= j < |headers| => Esc(Cell(row, headers[j])));
    var lib := seq(|headers|, j requires 0 <= j < |headers| => LibField(Cell(row, headers[j])));
    EscapeAllAt(values);
    forall j | 0 <= j < |headers|
      ensures page[j] == EscapeAll(values)[j] && lib[j] == EscapeAll(values)[j]
    {
      FieldEncodersAgree(Cell(row, headers[j]));
    }
    assert page == EscapeAll(values);
    assert lib == EscapeAll(values);
  }

  /** The row lines of both exports, as the reader's lines. */
  lemma RowLinesOf(rows: seq<Row>, headers: seq<string>)
    ensures seq(|rows|, i requires 0 <= i < |rows| => PageRowLine(rows[i], headers))
         == seq(|rows|, i requires 0 <= i < |rows| => RowLine(rows[i], headers))
    ensures seq(|rows|, i requires 0 <= i < |rows| => LibRowLine(rows[i], headers))
         == seq(|rows|, i requires 0 <= i < |rows| => RowLine(rows[i], headers))
  {
    forall i | 0 <= i < |rows| {
      RowLinesAgree(rows[i], headers);
    }
  }

  /** The page's `toCSV` as written: lines pushed one row at a time, joined at the end. */
  method ToCsv(rows: seq<Row>, headers: seq<string>) returns (csv: string)
    ensures csv == PageCsv(rows, headers)
  {
    var lines := [Line(headers)];
    for i := 0 to |rows|
      invariant |lines| == i + 1 && lines[0] == Line(headers)
      invariant forall k :: 0 <= k < i ==> lines[k + 1] == PageRowLine(rows[k], headers)
    {
      var fields := seq(|headers|, j requires 0 <= j < |headers| => Esc(Cell(rows[i], headers[j])));
      lines := lines + [Join(fields, ',')];
    }
    assert lines == [Line(headers)] + seq(|rows|, i requires 0 <= i < |rows| => PageRowLine(rows[i], headers));
    csv := Join(lines, '\n');
  }

  /** Escaping leaves a field alone exactly when it needs no quoting. */
  lemma {:induction false} EscapeAllPlain(fields: seq<string>)
    requires forall j :: 0 <= j < |fields| ==> !NeedsQuoting(fields[j])
    ensures EscapeAll(fields) == fields
  {
    if fields != [] {
      EscapeAllPlain(fields[1..]);
      assert [fields[0]] + fields[1..] == fields;
    }
  }

  /** An escaped field is never shorter than the field, and a quoted one is longer. */
  lemma EscapeLength(s: string)
    ensures |Escape(s)| >= |s|
    ensures NeedsQuoting(s) ==> |Escape(s)| > |s|
  {
  }

  /**
   * An escaped line is never shorter than its fields joined as they are, and
   * it is longer as soon as one field needs quoting.
   */
  lemma {:induction false} LineLength(fields: seq<string>)
    ensures |Line(fields)| >= |Join(fields, ',')|
    ensures (exists j :: 0 <= j < |fields| && NeedsQuoting(fields[j])) ==> |Line(fields)| > |Join(fields, ',')|
  {
    if fields != [] {
      EscapeLength(fields[0]);
      if |fields| > 1 {
        assert EscapeAll(fields)[1..] == EscapeAll(fields[1..]);
        LineLength(fields[1..]);
        if exists j :: 0 <= j < |fields| && NeedsQuoting(fields[j]) {
          var j :| 0 <= j < |fields| && NeedsQuoting(fields[j]);
          if j > 0 {
            assert NeedsQuoting(fields[1..][j - 1]);
          }
        }
      }
    }
  }

  /** The length of a joined text: the first part, then a separator and the rest when there is a rest. */
  lemma JoinFirstLength(first: string, rest: seq<string>, sep: char)
    ensures |Join([first] + rest, sep)| == |first| + (if rest == [] then 0 else 1 + |Join(rest, sep)|)
  {
    if rest != [] {
      assert ([first] + rest)[1..] == rest;
    }
  }

  /**
   * The two `toCSV`s write the same text exactly when no header needs
   * quoting: otherwise the page's escaped header line is longer than the
   * library's bare one.
   */
  lemma LibMatchesPage(rows: seq<Row>, headers: seq<string>)
    ensures LibCsv(rows, headers) == PageCsv(rows, headers)
        <==> forall j :: 0 <= j < |headers| ==> !NeedsQuoting(headers[j])
  {
    var rowLines := seq(|rows|, i requires 0 <= i < |rows| => RowLine(rows[i], headers));
    RowLinesOf(rows, headers);
    if forall j :: 0 <= j < |headers| ==> !NeedsQuoting(headers[j]) {
      EscapeAllPlain(headers);
    } else {
      LineLength(headers);
      JoinFirstLength(Join(headers, ','), rowLines, '\n');
      JoinFirstLength(Line(headers), rowLines, '\n');
    }
  }

  // ---------------------------------------------------------------------
  // Reading CSV back
  // ---------------------------------------------------------------------

  /**
   * The inside of a quoted field, after its opening quote: a doubled quote
   * stands for one quote, a single quote ends the field. Returns the field and
   * what follows the closing quote.
   */
  function QuotedBody(s: string): (r: Option<(string, string)>)
    ensures r.Some? ==> |r.value.1| < |s|
    decreases |s|
  {
    if s == [] then None
    else if s[0] == '"' then
      if |s| >= 2 && s[1] == '"' then
        match QuotedBody(s[2..])
        case None => None
        case Some((body, rest)) => Some(("\"" + body, rest))
      else Some(([], s[1..]))
    else
      match QuotedBody(s[1..])
      case None => None
      case Some((body, rest)) => Some(([s[0]] + body, rest))
  }

  /** An unquoted field: everything up to the next comma or line feed. */
  function Unquoted(s: string): (r: (string, string))
    ensures |r.1| <= |s|
    decreases |s|
  {
    if s == [] || s[0] == ',' || s[0] == '\n' then ([], s)
    else
      var (field, rest) := Unquoted(s[1..]);
      ([s[0]] + field, rest)
  }

  function ParseField(s: string): (r: Option<(string, string)>)
    ensures r.Some? ==> |r.value.1| <= |s|
  {
    if s != [] && s[0] == '"' then QuotedBody(s[1..]) else Some(Unquoted(s))
  }

  /** One line's fields, and the text after its line feed when there is one. */
  function ParseRecord(s: string): (r: Option<(seq<string>, Option<string>)>)
    ensures r.Some? && r.value.1.Some? ==> |r.value.1.value| < |s|
    decreases |s|
  {
    match ParseField(s)
    case None => None
    case Some((field, rest)) =>
      if rest == [] then Some(([field], None))
      else if rest[0] == '\n' then Some(([field], Some(rest[1..])))
      else if rest[0] == ',' then
        match ParseRecord(rest[1..])
        case None => None
        case Some((fields, next)) => Some(([field] + fields, next))
      else None
  }

  /** All lines of a CSV text; `None` for text that is not well formed. */
  function ParseCsv(s: string): Option<seq<seq<string>>>
    decreases |s|
  {
    match ParseRecord(s)
    case None => None
    case Some((fields, None)) => Some([fields])
    case Some((fields, Some(rest))) =>
      match ParseCsv(rest)
      case None => None
      case Some(records) => Some([fields] + records)
  }

  /** What may follow a field: nothing, a comma or a line feed. */
  predicate FieldEnd(tail: string) {
    tail == [] || tail[0] == ',' || tail[0] == '\n'
  }

  lemma {:induction false} QuotedRoundTrip(s: string, tail: string)
    requires FieldEnd(tail)
    ensures QuotedBody(DoubleQuotes(s) + "\"" + tail) == Some((s, tail))
  {
    if s == [] {
      assert DoubleQuotes(s) + "\"" + tail == ['"'] + tail;
      QuotedClose(tail);
    } else {
      var t := DoubleQuotes(s[1..]) + "\"" + tail;
      QuotedRoundTrip(s[1..], tail);
      var q := if s[0] == '"' then "\"\"" else [s[0]];
      assert DoubleQuotes(s) == q + DoubleQuotes(s[1..]);
      assert DoubleQuotes(s) + "\"" + tail == q + t;
      QuotedStep(s[0], t, s[1..], tail);
      assert [s[0]] + s[1..] == s;
    }
  }

  /** A single quote followed by the end of a field closes the field. */
  lemma QuotedClose(tail: string)
    requires FieldEnd(tail)
    ensures QuotedBody(['"'] + tail) == Some(([], tail))
  {
    if tail != [] {
      assert (['"'] + tail)[1] == tail[0];
    }
    assert (['"'] + tail)[1..] == tail;
  }

  /** One more character of a quoted field, its quote doubled, reads as that character. */
  lemma QuotedStep(c: char, t: string, body: string, rest: string)
    requires QuotedBody(t) == Some((body, rest))
    ensures QuotedBody((if c == '"' then "\"\"" else [c]) + t) == Some(([c] + body, rest))
  {
    if c == '"' {
      assert ("\"\"" + t)[2..] == t;
    } else {
      assert ([c] + t)[1..] == t;
    }
  }

  /** A field with no comma or line feed reads back bare, whatever quotes it holds. */
  lemma {:induction false} UnquotedRoundTrip(s: string, tail: string)
    requires ',' !in s && '\n' !in s && FieldEnd(tail)
    ensures Unquoted(s + tail) == (s, tail)
  {
    if s == [] {
      assert s + tail == tail;
    } else {
      assert s[0] in s;
      assert (s + tail)[1..] == s[1..] + tail;
      assert forall c :: c in s[1..] ==> c in s;
      UnquotedRoundTrip(s[1..], tail);
      assert [s[0]] + s[1..] == s;
    }
  }

  /** Reading an escaped field back gives the field and leaves what follows it. */
  lemma FieldRoundTrip(s: string, tail: string)
    requires FieldEnd(tail)
    ensures ParseField(Escape(s) + tail) == Some((s, tail))
  {
    if NeedsQuoting(s) {
      var t := DoubleQuotes(s) + "\"" + tail;
      assert Escape(s) + tail == "\"" + t;
      assert ("\"" + t)[1..] == t;
      QuotedRoundTrip(s, tail);
    } else {
      UnquotedRoundTrip(s, tail);
      if s != [] {
        assert s[0] in s;
      }
    }
  }

  /** Reading an encoded line back gives its fields, and the text after its line feed. */
  lemma {:induction false} RecordRoundTrip(fields: seq<string>, tail: string)
    requires |fields| >= 1
    requires tail == [] || tail[0] == '\n'
    ensures ParseRecord(Line(fields) + tail) == Some((fields, if tail == [] then None else Some(tail[1..])))
  {
    var e := EscapeAll(fields);
    if |fields| == 1 {
      assert fields == [fields[0]];
      assert e == [Escape(fields[0])];
      assert Line(fields) == Escape(fields[0]);
      FieldRoundTrip(fields[0], tail);
    } else {
      var restLine := Line(fields[1..]);
      assert e[1..] == EscapeAll(fields[1..]);
      assert Line(fields) + tail == Escape(fields[0]) + ([','] + restLine + tail);
      FieldRoundTrip(fields[0], [','] + restLine + tail);
      assert ([','] + restLine + tail)[1..] == restLine + tail;
      RecordRoundTrip(fields[1..], tail);
      assert [fields[0]] + fields[1..] == fields;
    }
  }

  /** The lines of a table of field texts, each encoded. */
  function Lines(records: seq<seq<string>>): (r: seq<string>)
    ensures |r| == |records|
  {
    if records == [] then [] else [Line(records[0])] + Lines(records[1..])
  }

  /** Reading an encoded table back gives every line's fields, when every line has at least one field. */
  lemma {:induction false} TableRoundTrip(records: seq<seq<string>>)
    requires |records| >= 1
    requires forall i :: 0 <= i < |records| ==> |records[i]| >= 1
    ensures ParseCsv(Join(Lines(records), '\n')) == Some(records)
  {
    if |records| == 1 {
      assert records == [records[0]];
      assert Lines(records) == [Line(records[0])];
      assert Join(Lines(records), '\n') == Line(records[0]) + [];
      RecordRoundTrip(records[0], []);
    } else {
      var rest := Join(Lines(records[1..]), '\n');
      assert Lines(records)[1..] == Lines(records[1..]);
      assert Join(Lines(records), '\n') == Line(records[0]) + (['\n'] + rest);
      RecordRoundTrip(records[0], ['\n'] + rest);
      assert (['\n'] + rest)[1..] == rest;
      TableRoundTrip(records[1..]);
      assert [records[0]] + records[1..] == records;
    }
  }

  /** The table the exports describe: the headers, then each row's values under them. */
  function Table(rows: seq<Row>, headers: seq<string>): (table: seq<seq<string>>)
    ensures |table| == |rows| + 1
  {
    [headers] + seq(|rows|, i requires 0 <= i < |rows| => Values(rows[i], headers))
  }

  lemma LinesOfTable(rows: seq<Row>, headers: seq<string>, table: seq<seq<string>>)
    requires table == Table(rows, headers)
    ensures Lines(table) == [Line(headers)] + seq(|rows|, i requires 0 <= i < |rows| => RowLine(rows[i], headers))
  {
    var lhs, rhs := Lines(table), [Line(headers)] + seq(|rows|, i requires 0 <= i < |rows| => RowLine(rows[i], headers));
    LinesAt(table);
    forall i | 0 <= i < |lhs| ensures lhs[i] == rhs[i] {
      if i > 0 {
        assert table[i] == Values(rows[i - 1], headers);
      }
    }
    assert lhs == rhs;
  }

  lemma {:induction false} LinesAt(records: seq<seq<string>>)
    ensures forall i :: 0 <= i < |records| ==> Lines(records)[i] == Line(records[i])
  {
    if records != [] {
      LinesAt(records[1..]);
      assert forall i :: 1 <= i < |records| ==> Lines(records)[i] == Lines(records[1..])[i - 1];
    }
  }

  /**
   * The page's export reads back as the header line and, for each row, its
   * values under the headers (missing values as empty fields).
   */
  lemma PageCsvRoundTrip(rows: seq<Row>, headers: seq<string>)
    requires |headers| >= 1
    ensures ParseCsv(PageCsv(rows, headers)) == Some(Table(rows, headers))
  {
    var table := Table(rows, headers);
    RowLinesOf(rows, headers);
    LinesOfTable(rows, headers, table);
    TableRoundTrip(table);
  }

  /**
   * A header the library writes bare reads back as itself when it holds no
   * comma or line feed and does not start with a quote. A quote inside it
   * is read as an ordinary character, as this reader does; a strict reader
   * of section 2 of RFC 4180 would reject it.
   */
  predicate BareField(s: string) {
    ',' !in s && '\n' !in s && (s == [] || s[0] != '"')
  }

  /** Reading a line of bare fields back gives its fields, and the text after its line feed. */
  lemma {:induction false} BareRecordRoundTrip(fields: seq<string>, tail: string)
    requires |fields| >= 1
    requires forall j :: 0 <= j < |fields| ==> BareField(fields[j])
    requires tail == [] || tail[0] == '\n'
    ensures ParseRecord(Join(fields, ',') + tail) == Some((fields, if tail == [] then None else Some(tail[1..])))
  {
    var f := fields[0];
    assert BareField(f);
    if |fields| == 1 {
      assert Join(fields, ',') + tail == f + tail;
      UnquotedRoundTrip(f, tail);
      assert fields == [f];
    } else {
      var restLine := Join(fields[1..], ',');
      var after := [','] + restLine + tail;
      assert Join(fields, ',') + tail == f + after;
      UnquotedRoundTrip(f, after);
      assert after[1..] == restLine + tail;
      BareRecordRoundTrip(fields[1..], tail);
      assert [f] + fields[1..] == fields;
    }
    if f != [] {
      assert (f + tail)[0] == f[0];
      assert (f + [','])[0] == f[0];
    }
  }

  /**
   * The library's export reads back the same way when every header is a
   * bare field; the headers of its callers are plain column names.
   */
  lemma LibCsvRoundTrip(rows: seq<Row>, headers: seq<string>)
    requires |headers| >= 1
    requires forall j :: 0 <= j < |headers| ==> BareField(headers[j])
    ensures ParseCsv(LibCsv(rows, headers)) == Some(Table(rows, headers))
  {
    var table := Table(rows, headers);
    var rowLines := seq(|rows|, i requires 0 <= i < |rows| => RowLine(rows[i], headers));
    var first := Join(headers, ',');
    RowLinesOf(rows, headers);
    if rows == [] {
      assert LibCsv(rows, headers) == first + [];
      BareRecordRoundTrip(headers, []);
      assert table == [headers];
    } else {
      var rest := Join(rowLines, '\n');
      assert ([first] + rowLines)[1..] == rowLines;
      assert LibCsv(rows, headers) == first + (['\n'] + rest);
      BareRecordRoundTrip(headers, ['\n'] + rest);
      assert (['\n'] + rest)[1..] == rest;
      LinesOfTable(rows, headers, table);
      assert Lines(table)[1..] == Lines(table[1..]);
      assert forall i :: 0 <= i < |table[1..]| ==> |table[1..][i]| == |headers|;
      TableRoundTrip(table[1..]);
      assert [headers] + table[1..] == table;
    }
  }
}
