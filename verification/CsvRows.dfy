/** The CSV reader of bank statements and the RFC 4180 writer it undoes. */
module CsvRows {
  import Text

  type Row = seq<string>

  /** The locals of the reading loop. */
  datatype Reader = Reader(rows: seq<Row>, row: Row, field: string, inQuotes: bool)

  const Fresh := Reader([], [], [], false)

  /** What String.prototype.trim removes. */
  predicate IsSpace(c: char)
  {
    var n := c as int;
    n in {0x09, 0x0A, 0x0B, 0x0C, 0x0D, 0x20, 0xA0, 0x1680, 0x2028, 0x2029, 0x202F, 0x205F, 0x3000, 0xFEFF}
    || 0x2000 <= n <= 0x200A
  }

  predicate BlankCell(cell: string)
  {
    forall i :: 0 <= i < |cell| ==> IsSpace(cell[i])
  }

  predicate Blank(row: Row)
  {
    forall i :: 0 <= i < |row| ==> BlankCell(row[i])
  }

  function EndField(r: Reader): Reader
  {
    r.(row := r.row + [r.field], field := [])
  }

  /** The end of a record: blank records are dropped. */
  function EndRow(r: Reader): Reader
  {
    var row := r.row + [r.field];
    r.(rows := if Blank(row) then r.rows else r.rows + [row], row := [], field := [])
  }

  predicate Terminator(c: char)
  {
    c == '\n' || c == '\r'
  }

  /** The rows read from the rest of the content. */
  function Read(rest: string, r: Reader, delimiter: char): seq<Row>
  {
    if rest == [] then EndRow(r).rows
    else if rest[0] == '"' then
      if r.inQuotes && |rest| > 1 && rest[1] == '"' then Read(rest[2..], r.(field := r.field + ['"']), delimiter)
      else Read(rest[1..], r.(inQuotes := !r.inQuotes), delimiter)
    else if rest[0] == delimiter && !r.inQuotes then Read(rest[1..], EndField(r), delimiter)
    else if Terminator(rest[0]) && !r.inQuotes then
      Read(rest[if rest[0] == '\r' && |rest| > 1 && rest[1] == '\n' then 2 else 1..], EndRow(r), delimiter)
    else Read(rest[1..], r.(field := r.field + [rest[0]]), delimiter)
  }

  method ParseCsvRows(content: string, delimiter: char) returns (rows: seq<Row>)
    ensures rows == Read(content, Fresh, delimiter)
  {
    rows := [];
    var row: Row, field: string, inQuotes := [], [], false;
    var index := 0;
    assert content[0..] == content;
    while index < |content|
      invariant 0 <= index <= |content|
      invariant Read(content, Fresh, delimiter)
             == Read(content[index..], Reader(rows, row, field, inQuotes), delimiter)
    {
      var c, rest := content[index], content[index..];
      assert rest[1..] == content[index + 1..];
      assert index + 1 < |content| ==> rest[1] == content[index + 1] && rest[2..] == content[index + 2..];
      if c == '"' {
        if inQuotes && index + 1 < |content| && content[index + 1] == '"' {
          field := field + ['"'];
          index := index + 1;
        } else {
          inQuotes := !inQuotes;
        }
      } else if c == delimiter && !inQuotes {
        row, field := row + [field], [];
      } else if (c == '\n' || c == '\r') && !inQuotes {
        if c == '\r' && index + 1 < |content| && content[index + 1] == '\n' {
          index := index + 1;
        }
        row := row + [field];
        if exists i :: 0 <= i < |row| && !BlankCell(row[i]) {
          rows := rows + [row];
        }
        row, field := [], [];
      } else {
        field := field + [c];
      }
      index := index + 1;
    }
    row := row + [field];
    if exists i :: 0 <= i < |row| && !BlankCell(row[i]) {
      rows := rows + [row];
    }
  }

  // ---------------------------------------------------------------- the writer of RFC 4180, section 2

  datatype Cell = Cell(value: string, quoted: bool)

  /** A record and the line break that ends it: LF, or CR LF. */
  datatype Line = Line(cells: seq<Cell>, crlf: bool)

  /** Rule 6: a field holding a quote, the delimiter or a line break is quoted. */
  predicate Plain(value: string, delimiter: char)
  {
    '"' !in value && delimiter !in value && '\n' !in value && '\r' !in value
  }

  predicate Printable(line: Line, delimiter: char)
  {
    line.cells != [] && forall c :: c in line.cells ==> c.quoted || Plain(c.value, delimiter)
  }

  /** Rule 7: a quote inside a quoted field is doubled. */
  function Doubled(value: string): string
  {
    if value == [] then []
    else (if value[0] == '"' then ['"', '"'] else [value[0]]) + Doubled(value[1..])
  }

  function PrintCell(c: Cell): string
  {
    if c.quoted then ['"'] + Doubled(c.value) + ['"'] else c.value
  }

  function PrintCells(cells: seq<Cell>, delimiter: char): string
  {
    if cells == [] then []
    else if |cells| == 1 then PrintCell(cells[0])
    else PrintCell(cells[0]) + [delimiter] + PrintCells(cells[1..], delimiter)
  }

  function LineBreak(crlf: bool): string
  {
    if crlf then ['\r', '\n'] else ['\n']
  }

  /** Rule 2: the last record may or may not have an ending line break. */
  function Print(lines: seq<Line>, delimiter: char, finalBreak: bool): string
  {
    if lines == [] then []
    else
      var text := PrintCells(lines[0].cells, delimiter);
      if |lines| == 1 && !finalBreak then text
      else text + LineBreak(lines[0].crlf) + Print(lines[1..], delimiter, finalBreak)
  }

  function Values(cells: seq<Cell>): Row
  {
    if cells == [] then [] else [cells[0].value] + Values(cells[1..])
  }

  function Record(line: Line): seq<Row>
  {
    if Blank(Values(line.cells)) then [] else [Values(line.cells)]
  }

  /** The records as values, blank ones left out. */
  function Records(lines: seq<Line>): seq<Row>
  {
    if lines == [] then []
    else Record(lines[0]) + Records(lines[1..])
  }

  // ---------------------------------------------------------------- reading what was written

  predicate Delimits(delimiter: char)
  {
    delimiter != '"' && !Terminator(delimiter)
  }

  lemma {:induction false} ReadQuoted(value: string, rest: string, r: Reader, delimiter: char)
    requires r.inQuotes && (rest != [] ==> rest[0] != '"')
    ensures Read(Doubled(value) + ['"'] + rest, r, delimiter)
         == Read(rest, r.(field := r.field + value, inQuotes := false), delimiter)
  {
    var text := Doubled(value) + ['"'] + rest;
    if value == [] {
      assert text[1..] == rest;
      assert r.field + [] == r.field;
    } else {
      var next := r.(field := r.field + [value[0]]);
      ReadQuoted(value[1..], rest, next, delimiter);
      assert text[if value[0] == '"' then 2 else 1..] == Doubled(value[1..]) + ['"'] + rest;
      assert next.field + value[1..] == r.field + value;
    }
  }

  lemma {:induction false} ReadPlain(value: string, rest: string, r: Reader, delimiter: char)
    requires Plain(value, delimiter) && !r.inQuotes
    ensures Read(value + rest, r, delimiter) == Read(rest, r.(field := r.field + value), delimiter)
  {
    if value == [] {
      assert value + rest == rest && r.field + [] == r.field;
    } else {
      var next := r.(field := r.field + [value[0]]);
      ReadPlain(value[1..], rest, next, delimiter);
      assert (value + rest)[1..] == value[1..] + rest;
      assert next.field + value[1..] == r.field + value;
    }
  }

  lemma ReadOpenQuote(rest: string, r: Reader, delimiter: char)
    requires !r.inQuotes
    ensures Read(['"'] + rest, r, delimiter) == Read(rest, r.(inQuotes := true), delimiter)
  {
    assert (['"'] + rest)[1..] == rest;
  }

  lemma ReadCell(c: Cell, rest: string, r: Reader, delimiter: char)
    requires Delimits(delimiter) && (c.quoted || Plain(c.value, delimiter))
    requires !r.inQuotes && r.field == [] && (rest != [] ==> rest[0] != '"')
    ensures Read(PrintCell(c) + rest, r, delimiter) == Read(rest, r.(field := c.value), delimiter)
  {
    hide Read, Doubled, Plain;
    if c.quoted {
      var open := r.(inQuotes := true);
      ReadOpenQuote(Doubled(c.value) + ['"'] + rest, r, delimiter);
      ReadQuoted(c.value, rest, open, delimiter);
      assert PrintCell(c) + rest == ['"'] + (Doubled(c.value) + ['"'] + rest);
      assert [] + c.value == c.value;
    } else {
      ReadPlain(c.value, rest, r, delimiter);
      assert [] + c.value == c.value;
    }
  }

  lemma ReadDelimiter(rest: string, r: Reader, delimiter: char)
    requires Delimits(delimiter) && !r.inQuotes
    ensures Read([delimiter] + rest, r, delimiter) == Read(rest, EndField(r), delimiter)
  {
    assert ([delimiter] + rest)[1..] == rest;
  }

  /** The reader after the cells of a record, its last field still open. */
  function Held(r: Reader, cells: seq<Cell>): Reader
    requires cells != []
    decreases |cells|
  {
    var next := r.(field := cells[0].value);
    if |cells| == 1 then next else Held(EndField(next), cells[1..])
  }

  lemma {:induction false} HeldRow(r: Reader, cells: seq<Cell>)
    requires cells != []
    ensures var h := Held(r, cells);
      h.row + [h.field] == r.row + Values(cells) && h.rows == r.rows && h.inQuotes == r.inQuotes
    decreases |cells|
  {
    if |cells| > 1 {
      HeldRow(EndField(r.(field := cells[0].value)), cells[1..]);
    } else {
      assert Values(cells) == [cells[0].value];
    }
  }

  lemma {:induction false} ReadCells(cells: seq<Cell>, rest: string, r: Reader, delimiter: char)
    requires Delimits(delimiter) && cells != []
    requires forall c :: c in cells ==> c.quoted || Plain(c.value, delimiter)
    requires !r.inQuotes && r.field == [] && (rest != [] ==> Terminator(rest[0]))
    ensures Read(PrintCells(cells, delimiter) + rest, r, delimiter) == Read(rest, Held(r, cells), delimiter)
  {
    hide Read, Plain, PrintCell;
    if |cells| == 1 {
      ReadCell(cells[0], rest, r, delimiter);
    } else {
      var tail := PrintCells(cells[1..], delimiter) + rest;
      var next := r.(field := cells[0].value);
      ReadCell(cells[0], [delimiter] + tail, r, delimiter);
      ReadDelimiter(tail, next, delimiter);
      ReadCells(cells[1..], rest, EndField(next), delimiter);
      assert PrintCells(cells, delimiter) + rest == PrintCell(cells[0]) + ([delimiter] + tail);
    }
  }

  lemma ReadBreak(crlf: bool, rest: string, r: Reader, delimiter: char)
    requires Delimits(delimiter) && !r.inQuotes
    ensures Read(LineBreak(crlf) + rest, r, delimiter) == Read(rest, EndRow(r), delimiter)
  {
    assert (LineBreak(crlf) + rest)[if crlf then 2 else 1..] == rest;
  }

  lemma ReadLine(line: Line, rest: string, r: Reader, delimiter: char)
    requires Delimits(delimiter) && Printable(line, delimiter)
    requires !r.inQuotes && r.field == [] && r.row == []
    ensures Read(PrintCells(line.cells, delimiter) + LineBreak(line.crlf) + rest, r, delimiter)
         == Read(rest, r.(rows := r.rows + Record(line)), delimiter)
    ensures Read(PrintCells(line.cells, delimiter), r, delimiter) == r.rows + Record(line)
  {
    var text, held := PrintCells(line.cells, delimiter), Held(r, line.cells);
    HeldRow(r, line.cells);
    assert held.row + [held.field] == Values(line.cells);
    assert EndRow(held) == r.(rows := r.rows + Record(line));
    assert text + (LineBreak(line.crlf) + rest) == text + LineBreak(line.crlf) + rest;
    assert text + [] == text;
    ReadCells(line.cells, LineBreak(line.crlf) + rest, r, delimiter);
    ReadBreak(line.crlf, rest, held, delimiter);
    ReadCells(line.cells, [], r, delimiter);
  }

  lemma PrintHead(lines: seq<Line>, delimiter: char, finalBreak: bool)
    requires lines != []
    ensures Records(lines) == Record(lines[0]) + Records(lines[1..])
    ensures |lines| == 1 ==> Records(lines) == Record(lines[0])
    ensures Print(lines, delimiter, finalBreak) ==
      if |lines| == 1 && !finalBreak then PrintCells(lines[0].cells, delimiter)
      else PrintCells(lines[0].cells, delimiter) + LineBreak(lines[0].crlf) + Print(lines[1..], delimiter, finalBreak)
  {
    assert |lines| == 1 ==> Records(lines) == Record(lines[0]) + [];
  }

  lemma NothingToRead(r: Reader, delimiter: char, finalBreak: bool)
    requires r.field == [] && r.row == []
    ensures Read(Print([], delimiter, finalBreak), r, delimiter) == r.rows + Records([])
  {
    assert r.row + [r.field] == [[]];
  }

  lemma {:induction false} ReadLines(lines: seq<Line>, r: Reader, delimiter: char, finalBreak: bool)
    requires Delimits(delimiter) && forall l :: l in lines ==> Printable(l, delimiter)
    requires !r.inQuotes && r.field == [] && r.row == []
    ensures Read(Print(lines, delimiter, finalBreak), r, delimiter) == r.rows + Records(lines)
  {
    if lines == [] {
      NothingToRead(r, delimiter, finalBreak);
    } else {
      hide *;
      PrintHead(lines, delimiter, finalBreak);
      var next := r.(rows := r.rows + Record(lines[0]));
      ReadLine(lines[0], Print(lines[1..], delimiter, finalBreak), r, delimiter);
      if |lines| > 1 || finalBreak {
        ReadLines(lines[1..], next, delimiter, finalBreak);
        Text.Assoc(r.rows, Record(lines[0]), Records(lines[1..]));
      }
    }
  }

  /**
    Round trip: whatever the delimiter, the quoting, the line breaks and the final one, reading a written
    file returns its records, except the blank ones.
  */
  lemma CsvRoundTrip(lines: seq<Line>, delimiter: char, finalBreak: bool)
    requires Delimits(delimiter) && forall l :: l in lines ==> Printable(l, delimiter)
    ensures Read(Print(lines, delimiter, finalBreak), Fresh, delimiter) == Records(lines)
  {
    ReadLines(lines, Fresh, delimiter, finalBreak);
    assert [] + Records(lines) == Records(lines);
  }

  function AllRecords(lines: seq<Line>): seq<Row>
  {
    if lines == [] then [] else [Values(lines[0].cells)] + AllRecords(lines[1..])
  }

  lemma {:induction false} RecordsKept(lines: seq<Line>)
    ensures |Records(lines)| <= |AllRecords(lines)| == |lines|
    ensures Records(lines) == AllRecords(lines) <==> forall l :: l in lines ==> !Blank(Values(l.cells))
  {
    if lines != [] {
      RecordsKept(lines[1..]);
      assert lines == [lines[0]] + lines[1..];
      if !Blank(Values(lines[0].cells)) {
        assert Records(lines)[1..] == Records(lines[1..]) && AllRecords(lines)[1..] == AllRecords(lines[1..]);
      }
    }
  }

  /** Every record comes back exactly when every record has a cell that is not blank. */
  lemma CsvRoundTripExact(lines: seq<Line>, delimiter: char, finalBreak: bool)
    requires Delimits(delimiter) && forall l :: l in lines ==> Printable(l, delimiter)
    ensures Read(Print(lines, delimiter, finalBreak), Fresh, delimiter) == AllRecords(lines)
       <==> forall l :: l in lines ==> exists i :: 0 <= i < |l.cells| && !BlankCell(l.cells[i].value)
  {
    CsvRoundTrip(lines, delimiter, finalBreak);
    RecordsKept(lines);
    forall l: Line ensures Blank(Values(l.cells)) <==> !exists i :: 0 <= i < |l.cells| && !BlankCell(l.cells[i].value) {
      ValuesAt(l.cells);
    }
  }

  lemma {:induction false} ValuesAt(cells: seq<Cell>)
    ensures |Values(cells)| == |cells| && forall i :: 0 <= i < |cells| ==> Values(cells)[i] == cells[i].value
  {
    if cells != [] {
      ValuesAt(cells[1..]);
    }
  }
}
