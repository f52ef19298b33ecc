/** `generateCSVString`: a table of JavaScript values serialised as CSV, each
    cell as `String(cell ?? "")` with embedded double quotes doubled, wrapped in
    double quotes when it holds a comma, a double quote, LF or CR; cells joined
    with `,`, records with CRLF and no terminator after the last record.

    Beside it, a reader for the grammar of section 2 of RFC 4180 (records
    separated by CRLF, fields separated by commas, a field either quoted, with
    `""` standing for one quote, or free of commas, quotes, CR and LF), and the
    proof that reading the output gives back every cell's text. */
module Csv {
  import opened Common
  import opened Strings
  import opened JsValues

  // ---------------------------------------------------------------------------
  // The writer

  /** `String(cell ?? "")` */
  function CellText(c: Json): (r: string)
    ensures Nullish(c) ==> r == ""
    ensures c.Str? ==> r == c.s
  {
    if Nullish(c) then "" else ToStr(c)
  }

  /** The characters that force a field into quotes. */
  predicate IsSpecial(c: char) {
    c == ',' || c == '"' || c == '\n' || c == '\r'
  }

  /** `str.includes(",") || str.includes('"') || str.includes("\n") || str.includes("\r")` */
  predicate NeedsQuotes(s: string) {
    ',' in s || '"' in s || '\n' in s || '\r' in s
  }

  /** `s.replace(/"/g, '""')` */
  function Escape(s: string): (r: string)
    ensures |r| >= |s|
  {
    if s == [] then []
    else (if s[0] == '"' then "\"\"" else [s[0]]) + Escape(s[1..])
  }

  /** Escaping adds and removes no kind of character... */
  lemma {:induction false} EscapeChars(s: string)
    ensures forall c :: c in Escape(s) <==> c in s
  {
    if s != [] {
      EscapeChars(s[1..]);
      assert forall c :: c in s <==> c == s[0] || c in s[1..];
    }
  }

  /** ...and leaves a text without quotes as it is. */
  lemma {:induction false} EscapeNoQuote(s: string)
    requires '"' !in s
    ensures Escape(s) == s
  {
    if s != [] {
      assert s[1..] == s[1..] && '"' !in s[1..] by {
        assert forall c :: c in s[1..] ==> c in s;
      }
      EscapeNoQuote(s[1..]);
      assert [s[0]] + s[1..] == s;
    }
  }

  /** One cell's text as it appears in the output. */
  function EncodeField(s: string): string
  {
    var e := Escape(s);
    if NeedsQuotes(e) then "\"" + e + "\"" else e
  }

  /** `row.map(...)`: every cell's text as it appears in the output. */
  function EncodeFields(cells: seq<string>): (r: seq<string>)
    ensures |r| == |cells|
  {
    if cells == [] then [] else [EncodeField(cells[0])] + EncodeFields(cells[1..])
  }

  /** One record: its encoded fields joined with commas. */
  function EncodeCells(cells: seq<string>): string {
    Join(EncodeFields(cells), ",")
  }

  /** `rows.map(...)`: every record as it appears in the output. */
  function EncodeRows(records: seq<seq<string>>): (r: seq<string>)
    ensures |r| == |records|
  {
    if records == [] then [] else [EncodeCells(records[0])] + EncodeRows(records[1..])
  }

  /** The records joined with CRLF. */
  function EncodeRecords(records: seq<seq<string>>): string {
    Join(EncodeRows(records), "\r\n")
  }

  /** The text of every cell of every row. */
  function Texts(rows: seq<seq<Json>>): (r: seq<seq<string>>)
    ensures |r| == |rows|
    ensures forall i :: 0 <= i < |rows| ==> |r[i]| == |rows[i]|
    ensures forall i, j :: 0 <= i < |rows| && 0 <= j < |rows[i]| ==> r[i][j] == CellText(rows[i][j])
  {
    seq(|rows|, i requires 0 <= i < |rows| =>
      seq(|rows[i]|, j requires 0 <= j < |rows[i]| => CellText(rows[i][j])))
  }

  /** `generateCSVString(rows)` */
  function Generate(rows: seq<seq<Json>>): string {
    EncodeRecords(Texts(rows))
  }

  // ---------------------------------------------------------------------------
  // The reader

  /** An unquoted field: the characters up to the first comma, quote, CR or LF. */
  function UnquotedText(s: string): (r: (string, string))
    ensures |r.1| <= |s|
    ensures r.1 == [] || IsSpecial(r.1[0])
  {
    if s == [] || IsSpecial(s[0]) then ("", s)
    else
      var p := UnquotedText(s[1..]);
      ([s[0]] + p.0, p.1)
  }

  /** A quoted field after its opening quote: up to the closing quote, with `""`
      read as one quote. `None` when the closing quote is missing. */
  function QuotedText(s: string): (r: Option<(string, string)>)
    ensures r.Some? ==> |r.value.1| < |s|
  {
    if s == [] then None
    else if s[0] == '"' then
      if |s| > 1 && s[1] == '"' then
        match QuotedText(s[2..])
        case None => None
        case Some(p) => Some(("\"" + p.0, p.1))
      else Some(("", s[1..]))
    else
      match QuotedText(s[1..])
      case None => None
      case Some(p) => Some(([s[0]] + p.0, p.1))
  }

  /** One field and the text after it. */
  function ParseField(s: string): (r: Option<(string, string)>)
    ensures r.Some? ==> |r.value.1| <= |s|
  {
    if s != [] && s[0] == '"' then QuotedText(s[1..]) else Some(UnquotedText(s))
  }

  /** One record and the text after it, which is empty or starts with CRLF.
      `None` when a field is followed by anything but a comma, CRLF or the end. */
  function ParseRecord(s: string): (r: Option<(seq<string>, string)>)
    decreases |s|
    ensures r.Some? ==> |r.value.1| <= |s| && (r.value.1 == [] || StartsWith(r.value.1, "\r\n"))
  {
    match ParseField(s)
    case None => None
    case Some(p) =>
      if p.1 == [] || StartsWith(p.1, "\r\n") then Some(([p.0], p.1))
      else if p.1[0] == ',' then
        match ParseRecord(p.1[1..])
        case None => None
        case Some(q) => Some(([p.0] + q.0, q.1))
      else None
  }

  /** A whole file: records separated by CRLF up to the end of the text. */
  function ParseFile(s: string): (r: Option<seq<seq<string>>>)
    decreases |s|
  {
    match ParseRecord(s)
    case None => None
    case Some(p) =>
      if p.1 == [] then Some([p.0])
      else
        match ParseFile(p.1[2..])
        case None => None
        case Some(rest) => Some([p.0] + rest)
  }

  // ---------------------------------------------------------------------------
  // The round trip

  /** One step of the quoted read: a doubled quote is read as one quote... */
  lemma QuotedStepQuote(x: string, t: string)
    requires x != [] && x[0] == '"'
    requires QuotedText(Escape(x[1..]) + "\"" + t) == Some((x[1..], t))
    ensures QuotedText(Escape(x) + "\"" + t) == Some((x, t))
  {
    var u := Escape(x[1..]) + "\"" + t;
    var s := Escape(x) + "\"" + t;
    assert Escape(x) == "\"\"" + Escape(x[1..]);
    assert s == "\"\"" + u;
    assert s[0] == '"' && s[1] == '"' && s[2..] == u;
    assert "\"" + x[1..] == x;
  }

  /** ...and any other character as itself. */
  lemma QuotedStepOther(x: string, t: string)
    requires x != [] && x[0] != '"'
    requires QuotedText(Escape(x[1..]) + "\"" + t) == Some((x[1..], t))
    ensures QuotedText(Escape(x) + "\"" + t) == Some((x, t))
  {
    var u := Escape(x[1..]) + "\"" + t;
    var s := Escape(x) + "\"" + t;
    assert Escape(x) == [x[0]] + Escape(x[1..]);
    assert s == [x[0]] + u;
    assert s[0] == x[0] && s[1..] == u;
    assert [x[0]] + x[1..] == x;
  }

  /** Reading an escaped text followed by the closing quote gives the text back. */
  lemma {:induction false} QuotedRoundTrip(x: string, t: string)
    requires t == [] || t[0] != '"'
    decreases |x|
    ensures QuotedText(Escape(x) + "\"" + t) == Some((x, t))
  {
    if x == [] {
      var s := Escape(x) + "\"" + t;
      assert s == "\"" + t;
      assert s[1..] == t;
    } else {
      QuotedRoundTrip(x[1..], t);
      if x[0] == '"' {
        QuotedStepQuote(x, t);
      } else {
        QuotedStepOther(x, t);
      }
    }
  }

  /** Reading a text free of special characters stops exactly where it ends. */
  lemma {:induction false} UnquotedRoundTrip(x: string, t: string)
    requires forall k :: 0 <= k < |x| ==> !IsSpecial(x[k])
    requires t == [] || IsSpecial(t[0])
    decreases |x|
    ensures UnquotedText(x + t) == (x, t)
  {
    if x == [] {
      assert x + t == t;
    } else {
      assert (x + t)[0] == x[0];
      assert (x + t)[1..] == x[1..] + t;
      UnquotedRoundTrip(x[1..], t);
      assert [x[0]] + x[1..] == x;
    }
  }

  /** A quoted field is read back as the text it quotes... */
  lemma QuotedFieldRoundTrip(x: string, t: string)
    requires t == [] || t[0] != '"'
    ensures ParseField("\"" + Escape(x) + "\"" + t) == Some((x, t))
  {
    var u := Escape(x) + "\"" + t;
    var s := "\"" + Escape(x) + "\"" + t;
    assert s == "\"" + u;
    assert s[0] == '"' && s[1..] == u;
    QuotedRoundTrip(x, t);
    assert QuotedText(u) == Some((x, t));
  }

  /** ...and a field that needs no quotes as itself. */
  lemma UnquotedFieldRoundTrip(x: string, t: string)
    requires !NeedsQuotes(x)
    requires t == [] || t[0] == ',' || t[0] == '\r'
    ensures ParseField(x + t) == Some((x, t))
  {
    assert forall k :: 0 <= k < |x| ==> !IsSpecial(x[k]) by {
      forall k | 0 <= k < |x| ensures !IsSpecial(x[k]) {
        assert x[k] in x;
      }
    }
    UnquotedRoundTrip(x, t);
    assert x != [] ==> (x + t)[0] == x[0];
  }

  /** A field followed by a comma, a CR or the end is read back as its text. */
  lemma FieldRoundTrip(x: string, t: string)
    requires t == [] || t[0] == ',' || t[0] == '\r'
    ensures ParseField(EncodeField(x) + t) == Some((x, t))
  {
    EncodeFieldQuoting(x);
    if NeedsQuotes(x) {
      QuotedFieldRoundTrip(x, t);
    } else {
      UnquotedFieldRoundTrip(x, t);
    }
  }

  lemma EncodeCellsSingle(cells: seq<string>)
    requires |cells| == 1
    ensures EncodeCells(cells) == EncodeField(cells[0])
  {
  }

  lemma EncodeCellsTail(cells: seq<string>)
    requires |cells| > 1
    ensures EncodeCells(cells) == EncodeField(cells[0]) + "," + EncodeCells(cells[1..])
  {
    var parts := EncodeFields(cells);
    assert parts == [EncodeField(cells[0])] + EncodeFields(cells[1..]);
    assert parts[1..] == EncodeFields(cells[1..]);
  }

  /** How `ParseRecord` ends a record after a field... */
  lemma ParseRecordLast(s: string, f: string, t: string)
    requires ParseField(s) == Some((f, t))
    requires t == [] || StartsWith(t, "\r\n")
    ensures ParseRecord(s) == Some(([f], t))
  {
  }

  /** ...and how it goes on after a comma. */
  lemma ParseRecordNext(s: string, f: string, rest: string, cells: seq<string>, t: string)
    requires ParseField(s) == Some((f, "," + rest))
    requires ParseRecord(rest) == Some((cells, t))
    ensures ParseRecord(s) == Some(([f] + cells, t))
  {
    var q := "," + rest;
    assert q[0] == ',' && q[1..] == rest;
    assert !StartsWith(q, "\r\n");
  }

  /** A record of one field followed by CRLF or the end is read back... */
  lemma RecordRoundTripLast(cells: seq<string>, t: string)
    requires |cells| == 1
    requires t == [] || StartsWith(t, "\r\n")
    ensures ParseRecord(EncodeCells(cells) + t) == Some((cells, t))
  {
    EncodeCellsSingle(cells);
    FieldRoundTrip(cells[0], t);
    ParseRecordLast(EncodeCells(cells) + t, cells[0], t);
    assert [cells[0]] == cells;
  }

  /** A record of several fields followed by `t`: its first field, a comma,
      and the rest of the record followed by `t`. */
  lemma EncodeCellsTailThen(cells: seq<string>, t: string)
    requires |cells| > 1
    ensures EncodeCells(cells) + t == EncodeField(cells[0]) + ("," + (EncodeCells(cells[1..]) + t))
  {
    EncodeCellsTail(cells);
  }

  /** ...and a longer record once the record of its later fields is. */
  lemma RecordRoundTripNext(cells: seq<string>, t: string)
    requires |cells| > 1
    requires ParseRecord(EncodeCells(cells[1..]) + t) == Some((cells[1..], t))
    ensures ParseRecord(EncodeCells(cells) + t) == Some((cells, t))
  {
    var rest := EncodeCells(cells[1..]) + t;
    EncodeCellsTailThen(cells, t);
    FieldRoundTrip(cells[0], "," + rest);
    ParseRecordNext(EncodeCells(cells) + t, cells[0], rest, cells[1..], t);
    assert [cells[0]] + cells[1..] == cells;
  }

  /** A record followed by CRLF or the end is read back field by field. */
  lemma {:induction false} RecordRoundTrip(cells: seq<string>, t: string)
    requires |cells| > 0
    requires t == [] || StartsWith(t, "\r\n")
    decreases |cells|
    ensures ParseRecord(EncodeCells(cells) + t) == Some((cells, t))
  {
    if |cells| == 1 {
      RecordRoundTripLast(cells, t);
    } else {
      RecordRoundTrip(cells[1..], t);
      RecordRoundTripNext(cells, t);
    }
  }

  lemma EncodeRecordsTail(records: seq<seq<string>>)
    requires |records| > 1
    ensures EncodeRecords(records) == EncodeCells(records[0]) + "\r\n" + EncodeRecords(records[1..])
  {
    var parts := EncodeRows(records);
    assert parts == [EncodeCells(records[0])] + EncodeRows(records[1..]);
    assert parts[1..] == EncodeRows(records[1..]);
  }

  /** How `ParseFile` ends at the last record... */
  lemma ParseFileLast(s: string, record: seq<string>)
    requires ParseRecord(s) == Some((record, ""))
    ensures ParseFile(s) == Some([record])
  {
  }

  /** ...and goes on after a CRLF. */
  lemma ParseFileNext(s: string, record: seq<string>, rest: string, records: seq<seq<string>>)
    requires ParseRecord(s) == Some((record, "\r\n" + rest))
    requires ParseFile(rest) == Some(records)
    ensures ParseFile(s) == Some([record] + records)
  {
    assert ("\r\n" + rest)[2..] == rest;
  }

  /** One record with at least one field is read back as a file... */
  lemma RecordsRoundTripLast(records: seq<seq<string>>)
    requires |records| == 1 && |records[0]| > 0
    ensures ParseFile(EncodeRecords(records)) == Some(records)
  {
    var s := EncodeRecords(records);
    assert s == EncodeCells(records[0]) + "";
    RecordRoundTrip(records[0], "");
    ParseFileLast(s, records[0]);
    assert [records[0]] == records;
  }

  /** ...and so are more, once the later ones are. */
  lemma RecordsRoundTripNext(records: seq<seq<string>>)
    requires |records| > 1 && |records[0]| > 0
    requires ParseFile(EncodeRecords(records[1..])) == Some(records[1..])
    ensures ParseFile(EncodeRecords(records)) == Some(records)
  {
    var rest := EncodeRecords(records[1..]);
    EncodeRecordsTail(records);
    assert EncodeRecords(records) == EncodeCells(records[0]) + ("\r\n" + rest);
    assert StartsWith("\r\n" + rest, "\r\n");
    RecordRoundTrip(records[0], "\r\n" + rest);
    ParseFileNext(EncodeRecords(records), records[0], rest, records[1..]);
    assert [records[0]] + records[1..] == records;
  }

  /** Records with at least one field each are read back exactly. */
  lemma {:induction false} RecordsRoundTrip(records: seq<seq<string>>)
    requires |records| > 0
    requires forall i :: 0 <= i < |records| ==> |records[i]| > 0
    decreases |records|
    ensures ParseFile(EncodeRecords(records)) == Some(records)
  {
    if |records| == 1 {
      RecordsRoundTripLast(records);
    } else {
      assert forall i :: 0 <= i < |records| - 1 ==> records[1..][i] == records[i + 1];
      RecordsRoundTrip(records[1..]);
      RecordsRoundTripNext(records);
    }
  }

  /** The CSV output of a non-empty table whose rows each have a cell reads back
      as `String(cell ?? "")` for every cell, with the same row and column counts. */
  lemma GenerateRoundTrip(rows: seq<seq<Json>>)
    requires |rows| > 0
    requires forall i :: 0 <= i < |rows| ==> |rows[i]| > 0
    ensures ParseFile(Generate(rows)) == Some(Texts(rows))
  {
    RecordsRoundTrip(Texts(rows));
  }

  /** A field is quoted exactly when its text holds a comma, a quote, LF or CR,
      and inside the quotes every quote of the text is doubled. */
  lemma EncodeFieldQuoting(s: string)
    ensures EncodeField(s) == (if NeedsQuotes(s) then "\"" + Escape(s) + "\"" else s)
  {
    EscapeChars(s);
    assert NeedsQuotes(Escape(s)) == NeedsQuotes(s);
    if !NeedsQuotes(s) {
      EscapeNoQuote(s);
    }
  }

  /** The shapes the round trip excludes. An empty row and a row with one
      empty cell write the same text... */
  lemma EmptyRowAmbiguity()
    ensures Generate([[]]) == Generate([[Str("")]]) == ""
  {
    assert Texts([[]]) == [[]];
    var x := Texts([[Str("")]]);
    assert x[0][0] == "";
    assert x[0] == [""];
    assert x == [[""]];
    assert EncodeField("") == "";
    assert EncodeCells([]) == "";
    assert EncodeCells([""]) == "";
  }

  /** ...and a last row with one empty cell leaves a CRLF at the end of the
      output, which a reader that takes the grammar's optional final CRLF as a
      terminator does not count as a row. */
  lemma TrailingEmptyRow()
    ensures Generate([[Str("a")], [Str("")]]) == Generate([[Str("a")]]) + "\r\n"
  {
    var rows := [[Str("a")], [Str("")]];
    var x := Texts(rows);
    assert x[0][0] == "a" && x[1][0] == "";
    assert x[0] == ["a"] && x[1] == [""];
    assert x == [["a"], [""]];
    var y := Texts([[Str("a")]]);
    assert y[0][0] == "a";
    assert y[0] == ["a"];
    assert y == [["a"]];
    assert EncodeField("") == "" && EncodeField("a") == "a";
    assert EncodeCells([""]) == "";
    assert EncodeCells(["a"]) == "a";
    EncodeRecordsTail([["a"], [""]]);
    assert [["a"], [""]][1..] == [[""]];
    assert EncodeRecords([[""]]) == "";
    assert EncodeRecords([["a"]]) == "a";
  }
}
