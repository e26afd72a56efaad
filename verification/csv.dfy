/**
 * Comma-separated values as the transcript export writes them: fields
 * separated by commas, records by a line feed, and a field that may hold
 * either wrapped in double quotes with its inner quotes doubled. The
 * reader here is the reference the writer is checked against: every
 * record written from well-formed fields reads back as those fields.
 */
module Csv {
  import opened Base

  // ---------------------------------------------------------------------
  // Quoting
  // ---------------------------------------------------------------------

  /** Every `"` written twice. */
  function DoubleQuotes(s: string): (r: string)
    ensures |r| == |s| + Occurrences(s, '"')
  {
    if s == [] then [] else (if s[0] == '"' then "\"\"" else [s[0]]) + DoubleQuotes(s[1..])
  }

  /** The inverse of `DoubleQuotes`: fails on a `"` that is not written twice. */
  function UndoubleQuotes(s: string): Option<string>
    decreases |s|
  {
    if s == [] then Some([])
    else if s[0] != '"' then
      match UndoubleQuotes(s[1..])
      case Some(t) => Some([s[0]] + t)
      case None => None
    else if |s| >= 2 && s[1] == '"' then
      match UndoubleQuotes(s[2..])
      case Some(t) => Some(['"'] + t)
      case None => None
    else None
  }

  lemma {:induction false} DoubleQuotesRoundTrip(s: string)
    ensures UndoubleQuotes(DoubleQuotes(s)) == Some(s)
  {
    if s != [] {
      var d := DoubleQuotes(s);
      DoubleQuotesRoundTrip(s[1..]);
      if s[0] == '"' {
        assert d == "\"\"" + DoubleQuotes(s[1..]);
        assert d[2..] == DoubleQuotes(s[1..]);
      } else {
        assert d == [s[0]] + DoubleQuotes(s[1..]);
        assert d[1..] == DoubleQuotes(s[1..]);
      }
      assert [s[0]] + s[1..] == s;
    }
  }

  /** A quoted field: wrapped in quotes, with inner quotes doubled. */
  function QuoteField(s: string): (q: string)
    ensures |q| == |s| + Occurrences(s, '"') + 2 && q[0] == '"' && q[|q| - 1] == '"'
  {
    "\"" + DoubleQuotes(s) + "\""
  }

  function UnquoteField(f: string): Option<string> {
    if |f| >= 2 && f[0] == '"' && f[|f| - 1] == '"' then UndoubleQuotes(f[1..|f| - 1]) else None
  }

  /** Unquoting a quoted field gives the text back. */
  lemma QuoteFieldRoundTrip(s: string)
    ensures UnquoteField(QuoteField(s)) == Some(s)
  {
    var q := QuoteField(s);
    assert q[1..|q| - 1] == DoubleQuotes(s);
    DoubleQuotesRoundTrip(s);
  }

  // ---------------------------------------------------------------------
  // Writing
  // ---------------------------------------------------------------------

  /** A field as the writer chooses to write it: bare, or quoted. */
  datatype Cell = Bare(text: string) | Quoted(text: string)

  /** Text that reads back bare: no separator in it, and no opening quote. */
  predicate Plain(s: string) {
    && (forall i :: 0 <= i < |s| ==> s[i] != ',' && s[i] != '\n')
    && (s == [] || s[0] != '"')
  }

  /** A cell that reads back as its text: a quoted one always, a bare one when plain. */
  predicate Writable(c: Cell) {
    c.Quoted? || Plain(c.text)
  }

  function Encode(c: Cell): string {
    match c
    case Bare(t) => t
    case Quoted(t) => QuoteField(t)
  }

  function TextOf(c: Cell): string { c.text }

  /** One record: its cells joined by commas. */
  function WriteRecord(cells: seq<Cell>): string {
    Join(Map(Encode, cells), ",")
  }

  /** The records joined by line feeds, with none after the last. */
  function Write(records: seq<seq<Cell>>): string {
    Join(Map(WriteRecord, records), "\n")
  }

  // ---------------------------------------------------------------------
  // Reading
  // ---------------------------------------------------------------------

  /** A quoted field's text after its opening quote, up to the closing one, and what follows. */
  function ReadQuoted(s: string): (r: Option<(string, string)>)
    ensures r.Some? ==> |r.value.1| < |s|
    decreases |s|
  {
    if s == [] then None
    else if s[0] != '"' then
      match ReadQuoted(s[1..])
      case Some((t, rest)) => Some(([s[0]] + t, rest))
      case None => None
    else if |s| >= 2 && s[1] == '"' then
      match ReadQuoted(s[2..])
      case Some((t, rest)) => Some((['"'] + t, rest))
      case None => None
    else Some(([], s[1..]))
  }

  /** A bare field: everything up to the next comma or line feed. */
  function ReadBare(s: string): (r: (string, string))
    ensures r.0 + r.1 == s
    ensures r.1 == [] || r.1[0] == ',' || r.1[0] == '\n'
    ensures forall i :: 0 <= i < |r.0| ==> r.0[i] != ',' && r.0[i] != '\n'
  {
    if s == [] || s[0] == ',' || s[0] == '\n' then ([], s)
    else
      var (t, rest) := ReadBare(s[1..]);
      assert s == [s[0]] + s[1..];
      ([s[0]] + t, rest)
  }

  /** One field, quoted when it opens with a quote, and what follows it. */
  function ReadField(s: string): (r: Option<(string, string)>)
    ensures r.Some? ==> |r.value.1| <= |s|
  {
    if s != [] && s[0] == '"' then ReadQuoted(s[1..]) else Some(ReadBare(s))
  }

  /**
   * One record: its fields, the text after it, and whether a line feed
   * ended it, so that another record follows. A field followed by anything
   * but a comma, a line feed or the end is malformed.
   */
  function ReadRecord(s: string): (r: Option<(seq<string>, string, bool)>)
    ensures r.Some? ==> r.value.0 != [] && |r.value.1| <= |s| && (r.value.2 ==> |r.value.1| < |s|)
    decreases |s|
  {
    match ReadField(s)
    case None => None
    case Some((f, rest)) =>
      if rest == [] then Some(([f], [], false))
      else if rest[0] == '\n' then Some(([f], rest[1..], true))
      else if rest[0] == ',' then
        match ReadRecord(rest[1..])
        case None => None
        case Some((fs, after, more)) => Some(([f] + fs, after, more))
      else None
  }

  /** All the records of a text, each as its fields. */
  function Parse(s: string): (r: Option<seq<seq<string>>>)
    decreases |s|
  {
    match ReadRecord(s)
    case None => None
    case Some((fs, rest, more)) =>
      if !more then Some([fs])
      else
        match Parse(rest)
        case None => None
        case Some(rs) => Some([fs] + rs)
  }

  // ---------------------------------------------------------------------
  // Reading back what was written
  // ---------------------------------------------------------------------

  /** The end of a field: nothing, or a separator. */
  predicate FieldEnd(rest: string) {
    rest == [] || rest[0] == ',' || rest[0] == '\n'
  }

  lemma {:induction false} ReadQuotedOf(t: string, rest: string)
    requires FieldEnd(rest)
    ensures ReadQuoted(DoubleQuotes(t) + "\"" + rest) == Some((t, rest))
  {
    var s := DoubleQuotes(t) + "\"" + rest;
    if t == [] {
      assert DoubleQuotes(t) == [];
      assert s == "\"" + rest;
      assert s[1..] == rest;
    } else {
      ReadQuotedOf(t[1..], rest);
      var tail := DoubleQuotes(t[1..]) + "\"" + rest;
      if t[0] == '"' {
        assert s == "\"\"" + tail;
        assert s[2..] == tail;
      } else {
        assert s == [t[0]] + tail;
        assert s[1..] == tail;
      }
      assert [t[0]] + t[1..] == t;
    }
  }

  lemma {:induction false} ReadBareOf(t: string, rest: string)
    requires forall i :: 0 <= i < |t| ==> t[i] != ',' && t[i] != '\n'
    requires FieldEnd(rest)
    ensures ReadBare(t + rest) == (t, rest)
  {
    if t == [] {
      assert t + rest == rest;
    } else {
      ReadBareOf(t[1..], rest);
      assert (t + rest)[1..] == t[1..] + rest;
      assert [t[0]] + t[1..] == t;
    }
  }

  /** A writable cell followed by the end of its field reads back as its text. */
  lemma ReadFieldOf(c: Cell, rest: string)
    requires Writable(c) && FieldEnd(rest)
    ensures ReadField(Encode(c) + rest) == Some((c.text, rest))
  {
    match c
    case Bare(t) =>
      ReadBareOf(t, rest);
    case Quoted(t) =>
      var s := QuoteField(t) + rest;
      assert s[1..] == DoubleQuotes(t) + "\"" + rest;
      ReadQuotedOf(t, rest);
  }

  /**
   * A written record, followed by nothing or by a line feed and more,
   * reads back as the texts of its cells, and says whether more follows.
   */
  lemma {:induction false} ReadRecordOf(cells: seq<Cell>, rest: string)
    requires cells != [] && forall i :: 0 <= i < |cells| ==> Writable(cells[i])
    requires rest == [] || rest[0] == '\n'
    ensures ReadRecord(WriteRecord(cells) + rest)
         == Some((Map(TextOf, cells), if rest == [] then [] else rest[1..], rest != []))
  {
    var s := WriteRecord(cells) + rest;
    if |cells| == 1 {
      assert WriteRecord(cells) == Encode(cells[0]);
      ReadFieldOf(cells[0], rest);
      assert Map(TextOf, cells) == [cells[0].text];
    } else {
      var after := WriteRecord(cells[1..]) + rest;
      assert Map(Encode, cells)[1..] == Map(Encode, cells[1..]);
      assert WriteRecord(cells) == Encode(cells[0]) + "," + WriteRecord(cells[1..]);
      assert s == Encode(cells[0]) + ("," + after);
      ReadFieldOf(cells[0], "," + after);
      assert ("," + after)[1..] == after;
      ReadRecordOf(cells[1..], rest);
      assert Map(TextOf, cells) == [cells[0].text] + Map(TextOf, cells[1..]);
    }
  }

  /** Written records, none of them empty and every cell writable, read back as their texts. */
  lemma {:induction false} ParseOf(records: seq<seq<Cell>>)
    requires records != []
    requires forall k :: 0 <= k < |records| ==>
      records[k] != [] && forall i :: 0 <= i < |records[k]| ==> Writable(records[k][i])
    ensures Parse(Write(records)) == Some(Map(TextsOf, records))
  {
    if |records| == 1 {
      assert Write(records) == WriteRecord(records[0]) + [];
      ReadRecordOf(records[0], []);
      assert Map(TextsOf, records) == [Map(TextOf, records[0])];
    } else {
      var tail := Write(records[1..]);
      assert Map(WriteRecord, records)[1..] == Map(WriteRecord, records[1..]);
      assert Write(records) == WriteRecord(records[0]) + ("\n" + tail);
      ReadRecordOf(records[0], "\n" + tail);
      assert ("\n" + tail)[1..] == tail;
      ParseOf(records[1..]);
      assert Map(TextsOf, records) == [Map(TextOf, records[0])] + Map(TextsOf, records[1..]);
    }
  }

  /** The texts of a record's cells, as a reader gets them back. */
  function TextsOf(cells: seq<Cell>): (r: seq<string>)
    ensures |r| == |cells| && forall i :: 0 <= i < |cells| ==> r[i] == cells[i].text
  {
    Map(TextOf, cells)
  }
}
