/** The CSV reader of batch updates, against every printer that follows section 2 of RFC 4180. */
module Csv {

  const QUOTE := '"'
  const CR := '\r'
  const LF := '\n'

  type Table = seq<seq<string>>

  // ---- The reader ----

  /** The variables of the reading loop. */
  datatype Scan = Scan(inQuotes: bool, value: string, row: seq<string>, rows: Table)

  /** How many characters one step takes, and the variables after it. */
  function Next(text: string, delimiter: char, s: Scan): (nat, Scan)
    requires text != ""
  {
    var c := text[0];
    var paired := |text| > 1 && ((c == QUOTE && s.inQuotes && text[1] == QUOTE) || (c == CR && !s.inQuotes && text[1] == LF));
    if c == QUOTE then
      if paired then (2, s.(value := s.value + [QUOTE])) else (1, s.(inQuotes := !s.inQuotes))
    else if c == delimiter && !s.inQuotes then (1, s.(value := "", row := s.row + [s.value]))
    else if (c == LF || c == CR) && !s.inQuotes then
      (if paired then 2 else 1, Scan(false, "", [], s.rows + [s.row + [s.value]]))
    else (1, s.(value := s.value + [c]))
  }

  function AtEnd(s: Scan): Table {
    if s.value != "" || s.row != [] then s.rows + [s.row + [s.value]] else s.rows
  }

  function Read(text: string, delimiter: char, s: Scan): Table
    decreases |text|
  {
    if text == "" then AtEnd(s)
    else
      var (n, s') := Next(text, delimiter, s);
      Read(text[n..], delimiter, s')
  }

  /** The characters that `trim` removes. */
  predicate IsSpace(c: char) {
    c in "\t\n\r \U{000B}\U{000C}\U{00A0}\U{1680}\U{2000}\U{2001}\U{2002}\U{2003}\U{2004}\U{2005}\U{2006}\U{2007}\U{2008}\U{2009}\U{200A}\U{2028}\U{2029}\U{202F}\U{205F}\U{3000}\U{FEFF}"
  }

  predicate NonBlank(row: seq<string>) { exists cell :: cell in row && exists c :: c in cell && !IsSpace(c) }

  function DropBlank(rows: Table): Table {
    if rows == [] then []
    else DropBlank(rows[..|rows| - 1]) + if NonBlank(rows[|rows| - 1]) then [rows[|rows| - 1]] else []
  }

  function Parse(text: string, delimiter: char): Table { DropBlank(Read(text, delimiter, Scan(false, "", [], []))) }

  method ParseCsv(content: string, delimiter: char) returns (rows: Table)
    ensures rows == Parse(content, delimiter)
  {
    rows := [];
    var currentRow: seq<string> := [];
    var currentValue := "";
    var inQuotes := false;
    var i := 0;
    while i < |content|
      invariant 0 <= i <= |content|
      invariant Read(content[i..], delimiter, Scan(inQuotes, currentValue, currentRow, rows))
                == Read(content, delimiter, Scan(false, "", [], []))
    {
      var c := content[i];
      var hasNext := i + 1 < |content|;
      ghost var rest := content[i..];
      ghost var (n, s) := Next(rest, delimiter, Scan(inQuotes, currentValue, currentRow, rows));
      assert rest[n..] == content[i + n..];
      if c == QUOTE {
        if inQuotes && hasNext && content[i + 1] == QUOTE {
          currentValue := currentValue + [QUOTE];
          i := i + 1;
        } else {
          inQuotes := !inQuotes;
        }
      } else if c == delimiter && !inQuotes {
        currentRow := currentRow + [currentValue];
        currentValue := "";
      } else if (c == LF || c == CR) && !inQuotes {
        if c == CR && hasNext && content[i + 1] == LF { i := i + 1; }
        currentRow := currentRow + [currentValue];
        rows := rows + [currentRow];
        currentRow := [];
        currentValue := "";
      } else {
        currentValue := currentValue + [c];
      }
      i := i + 1;
    }
    if |currentValue| > 0 || |currentRow| > 0 {
      currentRow := currentRow + [currentValue];
      rows := rows + [currentRow];
    }
    rows := DropBlank(rows);
  }

  // ---- The printer ----

  /** A cell and whether the printer encloses it in quotes, which it must when the text needs them. */
  datatype Cell = Cell(text: string, quoted: bool)

  datatype LineEnd = EndLf | EndCr | EndCrLf | NoEnd

  datatype Row = Row(cells: seq<Cell>, end: LineEnd)

  predicate Special(c: char, delimiter: char) { c == QUOTE || c == CR || c == LF || c == delimiter }

  predicate Plain(text: string, delimiter: char) { forall c :: c in text ==> !Special(c, delimiter) }

  /** Each row has a cell, quotes are used where needed, and only the last row may lack its line end. */
  ghost predicate Printable(rows: seq<Row>, delimiter: char) {
    && (forall i :: 0 <= i < |rows| ==> rows[i].cells != [])
    && (forall i, j :: 0 <= i < |rows| && 0 <= j < |rows[i].cells| ==> PrintableCell(rows[i].cells[j], delimiter))
    && (forall i :: 0 <= i < |rows| - 1 ==> rows[i].end != NoEnd)
  }

  predicate PrintableCell(cell: Cell, delimiter: char) { cell.quoted || Plain(cell.text, delimiter) }

  function Double(text: string): string {
    if text == "" then "" else (if text[0] == QUOTE then [QUOTE, QUOTE] else [text[0]]) + Double(text[1..])
  }

  function PrintCell(cell: Cell): string {
    if cell.quoted then [QUOTE] + Double(cell.text) + [QUOTE] else cell.text
  }

  function PrintCells(cells: seq<Cell>, delimiter: char): string
    requires cells != []
  {
    if |cells| == 1 then PrintCell(cells[0]) else PrintCell(cells[0]) + [delimiter] + PrintCells(cells[1..], delimiter)
  }

  function PrintEnd(end: LineEnd): string {
    match end
    case EndLf => [LF]
    case EndCr => [CR]
    case EndCrLf => [CR, LF]
    case NoEnd => ""
  }

  function Print(rows: seq<Row>, delimiter: char): string
    requires forall i :: 0 <= i < |rows| ==> rows[i].cells != []
  {
    if rows == [] then ""
    else PrintCells(rows[0].cells, delimiter) + PrintEnd(rows[0].end) + Print(rows[1..], delimiter)
  }

  function Texts(cells: seq<Cell>): (texts: seq<string>)
    ensures |texts| == |cells|
  {
    if cells == [] then [] else [cells[0].text] + Texts(cells[1..])
  }

  function Content(rows: seq<Row>): (content: Table)
    ensures |content| == |rows|
  {
    if rows == [] then [] else [Texts(rows[0].cells)] + Content(rows[1..])
  }

  // ---- Reading back what was printed ----

  predicate EndsCell(rest: string, delimiter: char) {
    rest == "" || rest[0] == delimiter || rest[0] == CR || rest[0] == LF
  }

  predicate GoodDelimiter(d: char) { d != QUOTE && d != CR && d != LF }

  lemma {:induction false} ReadsPlain(text: string, rest: string, d: char, s: Scan)
    requires Plain(text, d) && !s.inQuotes
    ensures Read(text + rest, d, s) == Read(rest, d, s.(value := s.value + text))
    decreases |text|
  {
    if text == "" {
      assert text + rest == rest && s.value + text == s.value;
    } else {
      var c := text[0];
      assert c in text && (text + rest)[1..] == text[1..] + rest;
      assert Next(text + rest, d, s) == (1, s.(value := s.value + [c]));
      ReadsPlain(text[1..], rest, d, s.(value := s.value + [c]));
      assert s.value + [c] + text[1..] == s.value + text;
    }
  }

  lemma {:induction false} ReadsQuoted(text: string, rest: string, d: char, s: Scan)
    requires GoodDelimiter(d) && EndsCell(rest, d) && s.inQuotes
    ensures Read(Double(text) + [QUOTE] + rest, d, s) == Read(rest, d, s.(inQuotes := false, value := s.value + text))
    decreases |text|
  {
    var all := Double(text) + [QUOTE] + rest;
    if text == "" {
      assert all[1..] == rest && s.value + text == s.value;
      assert Next(all, d, s) == (1, s.(inQuotes := false));
    } else {
      var n := if text[0] == QUOTE then 2 else 1;
      assert all[n..] == Double(text[1..]) + [QUOTE] + rest;
      assert Next(all, d, s) == (n, s.(value := s.value + [text[0]]));
      ReadsQuoted(text[1..], rest, d, s.(value := s.value + [text[0]]));
      assert s.value + [text[0]] + text[1..] == s.value + text;
    }
  }

  lemma {:induction false} ReadsCell(cell: Cell, rest: string, d: char, s: Scan)
    requires GoodDelimiter(d) && EndsCell(rest, d) && PrintableCell(cell, d) && !s.inQuotes && s.value == ""
    ensures Read(PrintCell(cell) + rest, d, s) == Read(rest, d, s.(value := cell.text))
  {
    assert "" + cell.text == cell.text;
    if cell.quoted {
      var all := PrintCell(cell) + rest;
      assert Next(all, d, s) == (1, s.(inQuotes := true));
      assert all[1..] == Double(cell.text) + [QUOTE] + rest;
      ReadsQuoted(cell.text, rest, d, s.(inQuotes := true));
    } else {
      ReadsPlain(cell.text, rest, d, s);
    }
  }

  lemma {:induction false} ReadsCells(cells: seq<Cell>, rest: string, d: char, s: Scan)
    requires cells != [] && forall j :: 0 <= j < |cells| ==> PrintableCell(cells[j], d)
    requires GoodDelimiter(d) && (rest == "" || rest[0] == CR || rest[0] == LF) && !s.inQuotes && s.value == ""
    ensures var texts := Texts(cells);
            var last := |texts| - 1;
            Read(PrintCells(cells, d) + rest, d, s)
            == Read(rest, d, s.(value := texts[last], row := s.row + texts[..last]))
    decreases |cells|
  {
    hide Read, PrintCell, PrintableCell, GoodDelimiter;
    var texts := Texts(cells);
    if |cells| == 1 {
      ReadsCell(cells[0], rest, d, s);
      assert s.row + texts[..0] == s.row;
    } else {
      var tail := PrintCells(cells[1..], d) + rest;
      assert PrintCells(cells, d) + rest == PrintCell(cells[0]) + ([d] + tail);
      ReadsCell(cells[0], [d] + tail, d, s);
      ReadsDelimiter(tail, d, s.(value := cells[0].text));
      ReadsCells(cells[1..], rest, d, s.(row := s.row + [cells[0].text]));
      MoveFirst(s.row, texts);
    }
  }

  lemma MoveFirst(row: seq<string>, texts: seq<string>)
    requires |texts| >= 2
    ensures row + [texts[0]] + texts[1..][..|texts| - 2] == row + texts[..|texts| - 1]
    ensures texts[1..][|texts| - 2] == texts[|texts| - 1]
  {}

  lemma {:induction false} ReadsDelimiter(rest: string, d: char, s: Scan)
    requires GoodDelimiter(d) && !s.inQuotes
    ensures Read([d] + rest, d, s) == Read(rest, d, s.(value := "", row := s.row + [s.value]))
  {
    assert ([d] + rest)[1..] == rest;
    assert Next([d] + rest, d, s) == (1, s.(value := "", row := s.row + [s.value]));
  }

  lemma {:induction false} DropBlankJoins(a: Table, b: Table)
    ensures DropBlank(a + b) == DropBlank(a) + DropBlank(b)
    decreases |b|
  {
    if b == [] {
      assert a + b == a;
    } else {
      var init, last := b[..|b| - 1], b[|b| - 1];
      assert (a + b)[..|a + b| - 1] == a + init;
      DropBlankJoins(a, init);
    }
  }

  /** A printed table starts with a line feed only if its first row is a single empty cell. */
  lemma {:induction false} StartsWithLf(rows: seq<Row>, d: char)
    requires Printable(rows, d) && GoodDelimiter(d)
    ensures var text := Print(rows, d);
            text != "" && text[0] == LF ==>
              rows != [] && Texts(rows[0].cells) == [""] && text[1..] == Print(rows[1..], d)
  {
    if rows != [] {
      CellsStartWithLf(rows[0].cells, d);
      hide PrintCells, Texts;
    }
  }

  lemma {:induction false} CellsStartWithLf(cells: seq<Cell>, d: char)
    requires cells != [] && PrintableCell(cells[0], d) && GoodDelimiter(d)
    ensures var text := PrintCells(cells, d);
            && (text == "" ==> Texts(cells) == [""])
            && (text != "" ==> text[0] != LF)
  {
    var first := cells[0].text;
    if first != "" && !cells[0].quoted { assert first[0] in first; }
  }

  /** What is left after a row's end: a carriage return takes a line feed that follows it along. */
  function AfterEnd(end: LineEnd, rest: string): string {
    if end == EndCr && rest != "" && rest[0] == LF then rest[1..] else rest
  }

  /** The reader at the end of a row: CR, LF and CRLF all end it, except that CR takes a following LF with it. */
  lemma {:induction false} ReadsEnd(end: LineEnd, rest: string, d: char, s: Scan)
    requires end != NoEnd && !s.inQuotes && GoodDelimiter(d)
    ensures Read(PrintEnd(end) + rest, d, s)
            == Read(AfterEnd(end, rest), d, Scan(false, "", [], s.rows + [s.row + [s.value]]))
  {
    var all := PrintEnd(end) + rest;
    var n := if AfterEnd(end, rest) != rest || end == EndCrLf then 2 else 1;
    assert Next(all, d, s) == (n, Scan(false, "", [], s.rows + [s.row + [s.value]]));
    assert all[n..] == AfterEnd(end, rest);
  }

  lemma {:induction false} BlankRowDrops(more: Table)
    ensures DropBlank([[""]] + more) == DropBlank(more)
  {
    DropBlankJoins([[""]], more);
    assert [[""]][..0] == [] && !NonBlank([""]);
    assert DropBlank([[""]]) == [];
  }

  lemma {:induction false} ReadsRows(rows: seq<Row>, d: char, sofar: Table)
    requires Printable(rows, d) && GoodDelimiter(d)
    ensures DropBlank(Read(Print(rows, d), d, Scan(false, "", [], sofar))) == DropBlank(sofar) + DropBlank(Content(rows))
    decreases |rows|
  {
    hide Read, Print, PrintCells, NonBlank, DropBlank, PrintableCell, GoodDelimiter;
    if rows == [] {
      NoRows(d, sofar);
    } else {
      var end, rest := rows[0].end, Print(rows[1..], d);
      var texts := Texts(rows[0].cells);
      ReadsRow(rows, d, sofar);
      AddsRow(sofar, texts, Content(rows[1..]));
      if end == NoEnd {
        LastRow(rows, d, sofar);
      } else if end == EndCr && rest != "" && rest[0] == LF {
        StartsWithLf(rows[1..], d);
        assert rest[1..] == Print(rows[1..][1..], d);
        assert rows[1..][1..] == rows[2..];
        ReadsRows(rows[2..], d, sofar + [texts]);
        assert Content(rows[1..]) == [[""]] + Content(rows[2..]);
        BlankRowDrops(Content(rows[2..]));
      } else {
        ReadsRows(rows[1..], d, sofar + [texts]);
      }
    }
  }

  lemma {:induction false} NoRows(d: char, sofar: Table)
    ensures DropBlank(Read(Print([], d), d, Scan(false, "", [], sofar))) == DropBlank(sofar) + DropBlank([])
  {
    assert DropBlank(sofar) + [] == DropBlank(sofar);
  }

  /** Reading the first row of a table, and its end if it has one. */
  lemma {:induction false} ReadsRow(rows: seq<Row>, d: char, sofar: Table)
    requires Printable(rows, d) && GoodDelimiter(d) && rows != []
    ensures var end, rest := rows[0].end, Print(rows[1..], d);
            var texts := Texts(rows[0].cells);
            var last := |texts| - 1;
            Read(Print(rows, d), d, Scan(false, "", [], sofar))
            == if end == NoEnd then AtEnd(Scan(false, texts[last], texts[..last], sofar))
               else Read(AfterEnd(end, rest), d, Scan(false, "", [], sofar + [texts]))
  {
    var end, rest := rows[0].end, Print(rows[1..], d);
    var texts := Texts(rows[0].cells);
    var last := |texts| - 1;
    assert last >= 0;
    hide Print, PrintCells, PrintEnd, Printable, PrintableCell, GoodDelimiter, AfterEnd, AtEnd, Next, Read, Texts;
    ReadsRowCells(rows, d, sofar);
    var s := Scan(false, texts[last], texts[..last], sofar);
    assert s.row + [s.value] == texts;
    if end == NoEnd { NothingLeft(d, s); } else { ReadsEnd(end, rest, d, s); }
  }

  lemma {:induction false} ReadsRowCells(rows: seq<Row>, d: char, sofar: Table)
    requires Printable(rows, d) && GoodDelimiter(d) && rows != []
    ensures var texts := Texts(rows[0].cells);
            var last := |texts| - 1;
            Read(Print(rows, d), d, Scan(false, "", [], sofar))
            == Read(PrintEnd(rows[0].end) + Print(rows[1..], d), d, Scan(false, texts[last], texts[..last], sofar))
    ensures rows[0].end == NoEnd ==> PrintEnd(rows[0].end) + Print(rows[1..], d) == ""
  {
    var cells, end, rest := rows[0].cells, rows[0].end, Print(rows[1..], d);
    PrintSplits(rows, d);
    var texts := Texts(cells);
    assert [] + texts[..|texts| - 1] == texts[..|texts| - 1];
    hide Print, PrintCells, PrintEnd, Printable, PrintableCell, GoodDelimiter, Read, Texts;
    ReadsCells(cells, PrintEnd(end) + rest, d, Scan(false, "", [], sofar));
  }

  lemma {:induction false} NothingLeft(d: char, s: Scan)
    ensures Read("", d, s) == AtEnd(s)
  {}

  lemma {:induction false} PrintSplits(rows: seq<Row>, d: char)
    requires Printable(rows, d) && rows != []
    ensures var end := rows[0].end;
            var after := PrintEnd(end) + Print(rows[1..], d);
            && Print(rows, d) == PrintCells(rows[0].cells, d) + after
            && (after == "" || after[0] == CR || after[0] == LF)
            && (end == NoEnd ==> after == "")
    ensures forall j :: 0 <= j < |rows[0].cells| ==> PrintableCell(rows[0].cells[j], d)
  {}

  lemma {:induction false} AddsRow(sofar: Table, row: seq<string>, more: Table)
    ensures DropBlank(sofar + [row]) + DropBlank(more) == DropBlank(sofar) + DropBlank([row] + more)
  {
    DropBlankJoins(sofar, [row]);
    DropBlankJoins([row], more);
  }

  lemma LastRow(rows: seq<Row>, d: char, sofar: Table)
    requires Printable(rows, d) && rows != [] && rows[0].end == NoEnd
    ensures var texts := Texts(rows[0].cells);
            var last := |texts| - 1;
            DropBlank(AtEnd(Scan(false, texts[last], texts[..last], sofar))) == DropBlank(sofar) + DropBlank(Content(rows))
  {
    var texts := Texts(rows[0].cells);
    var last := |texts| - 1;
    assert |rows| == 1 && Content(rows) == [texts] by { assert Content(rows[1..]) == []; }
    assert texts == texts[..last] + [texts[last]];
    DropBlankJoins(sofar, [texts]);
    if texts[last] == "" && texts[..last] == [] {
      assert texts == [""] && [[""]] + [] == [[""]];
      BlankRowDrops([]);
    }
  }

  /**
   * The reader undoes every such printer: whatever cells are quoted beyond need and however each row is
   * ended, the rows come back as they were, without the rows that hold nothing but white space.
   */
  lemma {:induction false} ParseUndoesPrint(rows: seq<Row>, d: char)
    requires Printable(rows, d) && GoodDelimiter(d)
    ensures Parse(Print(rows, d), d) == DropBlank(Content(rows))
  {
    ReadsRows(rows, d, []);
    assert [] + DropBlank(Content(rows)) == DropBlank(Content(rows));
  }

  /** A table without blank rows comes back exactly. */
  lemma {:induction false} NothingToDrop(rows: Table)
    requires forall i :: 0 <= i < |rows| ==> NonBlank(rows[i])
    ensures DropBlank(rows) == rows
    decreases |rows|
  {
    hide NonBlank;
    if rows != [] {
      var init := rows[..|rows| - 1];
      assert forall i :: 0 <= i < |init| ==> init[i] == rows[i];
      NothingToDrop(init);
    }
  }

  lemma {:induction false} RoundTrip(rows: seq<Row>, d: char)
    requires Printable(rows, d) && GoodDelimiter(d)
    requires forall i :: 0 <= i < |rows| ==> NonBlank(Content(rows)[i])
    ensures Parse(Print(rows, d), d) == Content(rows)
  {
    ParseUndoesPrint(rows, d);
    NothingToDrop(Content(rows));
  }
}
