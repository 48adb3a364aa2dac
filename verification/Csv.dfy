/**
 * The CSV text sent to COPY, and a reference reader for it: the grammar of section 2 of RFC 4180, with
 * PostgreSQL's rule that an unquoted empty field is NULL.
 */
module Csv {
  import opened Common
  import opened Decimal

  /** Text that needs no quotes: what the printers of UUIDs, instants and numbers give. */
  predicate IsPlain(s: string) {
    s != "" && NoSpecials(s)
  }

  predicate NoSpecials(s: string) {
    forall i :: 0 <= i < |s| ==> s[i] != '"' && s[i] != ',' && s[i] != '\n' && s[i] != '\r'
  }

  type PlainText = s: string | IsPlain(s) witness "0"

  /** One column as the service writes it. */
  datatype Cell = Quoted(text: string) | Bare(plain: PlainText) | Empty

  /** A row has at least one column. */
  type Row = r: seq<Cell> | r != [] witness [Empty]

  /** One column as the database reads it. */
  datatype Field = Null | Text(text: string)

  function Value(c: Cell): Field {
    match c
    case Quoted(t) => Text(t)
    case Bare(p) => Text(p)
    case Empty => Null
  }

  function Values(cells: seq<Cell>): seq<Field> {
    seq(|cells|, i requires 0 <= i < |cells| => Value(cells[i]))
  }

  // ---------------------------------------------------------------- writing

  function Escaped(s: string): string {
    if s == "" then "" else (if s[0] == '"' then "\"\"" else [s[0]]) + Escaped(s[1..])
  }

  function CellText(c: Cell): string {
    match c
    case Quoted(t) => "\"" + Escaped(t) + "\""
    case Bare(p) => p
    case Empty => ""
  }

  /** The cells separated by commas, ended by a line feed. */
  function RowText(cells: Row): string {
    if |cells| == 1 then CellText(cells[0]) + "\n"
    else CellText(cells[0]) + "," + RowText(cells[1..])
  }

  function RowsText(rows: seq<Row>): string {
    if rows == [] then "" else RowText(rows[0]) + RowsText(rows[1..])
  }

  function OptText(value: Option<string>): Cell {
    if value.Some? then Quoted(value.value) else Empty
  }

  function OptPlain(value: Option<PlainText>): Cell {
    if value.Some? then Bare(value.value) else Empty
  }

  function OptNum(n: Option<int>): Cell {
    if n.Some? then Bare(PrintInt(n.value)) else Empty
  }

  /** The growing text of a batch. */
  class CsvBuffer {
    var text: string

    constructor ()
      ensures text == ""
    {
      text := "";
    }

    method Push(s: string)
      modifies this
      ensures text == old(text) + s
    {
      text := text + s;
    }

    /** Doubles every quote and puts the value between quotes. */
    method PushQuoted(s: string)
      modifies this
      ensures text == old(text) + CellText(Quoted(s))
    {
      text := text + "\"";
      for i := 0 to |s|
        invariant text + Escaped(s[i..]) == old(text) + "\"" + Escaped(s)
      {
        assert s[i..][1..] == s[i + 1..];
        if s[i] == '"' {
          text := text + "\"";
        }
        text := text + [s[i]];
      }
      assert s[|s|..] == "" && text == old(text) + "\"" + Escaped(s);
      assert text + "\"" == old(text) + ("\"" + Escaped(s) + "\"");
      text := text + "\"";
    }

    method PushOpt(value: Option<string>)
      modifies this
      ensures text == old(text) + CellText(OptText(value))
    {
      if value.Some? {
        PushQuoted(value.value);
      }
    }

    method PushBare(p: PlainText)
      modifies this
      ensures text == old(text) + CellText(Bare(p))
    {
      text := text + p;
    }

    method PushPlain(value: Option<PlainText>)
      modifies this
      ensures text == old(text) + CellText(OptPlain(value))
    {
      if value.Some? {
        text := text + value.value;
      }
    }

    method PushNum(n: Option<int>)
      modifies this
      ensures text == old(text) + CellText(OptNum(n))
    {
      if n.Some? {
        text := text + PrintInt(n.value);
      }
    }
  }

  // ---------------------------------------------------------------- reading

  /** Where the reader is inside a record; the text of the current field so far. */
  datatype Mode = AtStart | InBare(acc: string) | InQuotes(acc: string) | AfterQuote(acc: string)

  function FieldOf(mode: Mode): Field
    requires !mode.InQuotes?
  {
    if mode.AtStart? then Null else Text(mode.acc)
  }

  /** Reads the rest of a text; None when it does not follow the grammar. */
  function Parse(mode: Mode, row: seq<Field>, s: string): Option<seq<seq<Field>>>
    decreases |s|
  {
    if s == "" then
      if mode.InQuotes? then None
      else if mode.AtStart? && row == [] then Some([])
      else Some([row + [FieldOf(mode)]])
    else if mode.InQuotes? then
      if s[0] == '"' then Parse(AfterQuote(mode.acc), row, s[1..])
      else Parse(InQuotes(mode.acc + [s[0]]), row, s[1..])
    else if s[0] == ',' then Parse(AtStart, row + [FieldOf(mode)], s[1..])
    else if s[0] == '\n' then EndRecord(row + [FieldOf(mode)], Parse(AtStart, [], s[1..]))
    else if s[0] == '\r' then
      if |s| >= 2 && s[1] == '\n' then EndRecord(row + [FieldOf(mode)], Parse(AtStart, [], s[2..])) else None
    else if s[0] == '"' then
      match mode
      case AtStart => Parse(InQuotes(""), row, s[1..])
      case AfterQuote(acc) => Parse(InQuotes(acc + "\""), row, s[1..])
      case _ => None
    else
      match mode
      case AtStart => Parse(InBare([s[0]]), row, s[1..])
      case InBare(acc) => Parse(InBare(acc + [s[0]]), row, s[1..])
      case _ => None
  }

  function EndRecord(row: seq<Field>, rest: Option<seq<seq<Field>>>): Option<seq<seq<Field>>> {
    if rest.Some? then Some([row] + rest.value) else None
  }

  function ParseAll(s: string): Option<seq<seq<Field>>> {
    Parse(AtStart, [], s)
  }

  // ---------------------------------------------------------------- round trip

  lemma {:induction false} ParseEscaped(acc: string, t: string, row: seq<Field>, rest: string)
    ensures Parse(InQuotes(acc), row, Escaped(t) + "\"" + rest) == Parse(AfterQuote(acc + t), row, rest)
    decreases |t|
  {
    var s := Escaped(t) + "\"" + rest;
    if t == "" {
      assert s == "\"" + rest && acc + t == acc;
    } else {
      assert acc + [t[0]] + t[1..] == acc + t;
      ParseEscaped(acc + [t[0]], t[1..], row, rest);
      if t[0] == '"' {
        assert s[1..][1..] == Escaped(t[1..]) + "\"" + rest;
        assert Parse(InQuotes(acc), row, s) == Parse(AfterQuote(acc), row, s[1..]);
      } else {
        assert s[1..] == Escaped(t[1..]) + "\"" + rest;
      }
    }
  }

  lemma {:induction false} ParseBare(acc: string, p: string, row: seq<Field>, rest: string)
    requires NoSpecials(p)
    ensures Parse(InBare(acc), row, p + rest) == Parse(InBare(acc + p), row, rest)
    decreases |p|
  {
    if p == "" {
      assert p + rest == rest && acc + p == acc;
    } else {
      assert (p + rest)[1..] == p[1..] + rest;
      assert acc + [p[0]] + p[1..] == acc + p;
      ParseBare(acc + [p[0]], p[1..], row, rest);
    }
  }

  /** After the text of a cell the reader holds its value. */
  ghost function Reached(c: Cell): Mode {
    match c
    case Quoted(t) => AfterQuote(t)
    case Bare(p) => InBare(p)
    case Empty => AtStart
  }

  lemma ParseQuoted(t: string, row: seq<Field>, rest: string)
    ensures Parse(AtStart, row, CellText(Quoted(t)) + rest) == Parse(AfterQuote(t), row, rest)
  {
    assert CellText(Quoted(t)) + rest == "\"" + (Escaped(t) + "\"" + rest);
    hide Escaped;
    ParseEscaped("", t, row, rest);
    assert "" + t == t;
  }

  lemma ParseCell(c: Cell, row: seq<Field>, rest: string)
    ensures Parse(AtStart, row, CellText(c) + rest) == Parse(Reached(c), row, rest)
    ensures FieldOf(Reached(c)) == Value(c)
  {
    match c
    case Quoted(t) =>
      ParseQuoted(t, row, rest);
    case Bare(p) =>
      assert (p + rest)[1..] == p[1..] + rest;
      ParseBare([p[0]], p[1..], row, rest);
      assert [p[0]] + p[1..] == p;
    case Empty =>
      assert CellText(c) + rest == rest;
  }

  lemma {:induction false} ParseRow(cells: Row, row: seq<Field>, rest: string)
    ensures Parse(AtStart, row, RowText(cells) + rest) == EndRecord(row + Values(cells), Parse(AtStart, [], rest))
    decreases |cells|
  {
    var tail := if |cells| == 1 then "\n" + rest else "," + (RowText(cells[1..]) + rest);
    assert RowText(cells) + rest == CellText(cells[0]) + tail;
    ParseCell(cells[0], row, tail);
    if |cells| == 1 {
      assert tail[1..] == rest;
      assert row + Values(cells) == row + [Value(cells[0])];
    } else {
      assert tail[1..] == RowText(cells[1..]) + rest;
      ParseRow(cells[1..], row + [Value(cells[0])], rest);
      assert row + Values(cells) == row + [Value(cells[0])] + Values(cells[1..]);
    }
  }

  function AllValues(rows: seq<Row>): (vs: seq<seq<Field>>)
    ensures |vs| == |rows| && forall i :: 0 <= i < |rows| ==> vs[i] == Values(rows[i])
  {
    if rows == [] then [] else [Values(rows[0])] + AllValues(rows[1..])
  }

  /** Reading back the text of any rows gives exactly their values, with NULL apart from the empty string. */
  lemma {:induction false} RoundTrip(rows: seq<Row>)
    ensures ParseAll(RowsText(rows)) == Some(AllValues(rows))
    decreases |rows|
  {
    if rows != [] {
      ParseRow(rows[0], [], RowsText(rows[1..]));
      assert [] + Values(rows[0]) == Values(rows[0]);
      RoundTrip(rows[1..]);
    }
  }
}
