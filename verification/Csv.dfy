/** The CSV reader of the admin site, and the text that section 2 of RFC 4180 allows for a
    table: any cell may be quoted, some must be; lines end in LF or CRLF. */
module Csv {

  type Row = seq<string>
  type Record = map<string, string>

  const BOM: char := '\U{FEFF}'

  /** The reader's variables. */
  datatype Scan = Scan(rows: seq<Row>, row: Row, field: string, quoted: bool)

  const Start := Scan([], [], "", false)

  predicate Blank(row: Row) {
    forall cell :: cell in row ==> cell == ""
  }

  function EndCell(scan: Scan): Scan {
    scan.(row := scan.row + [scan.field], field := "")
  }

  /** Blank rows are skipped. */
  function EndRow(scan: Scan): Scan {
    var row := scan.row + [scan.field];
    Scan(if Blank(row) then scan.rows else scan.rows + [row], [], "", scan.quoted)
  }

  function Append(scan: Scan, text: string): Scan {
    scan.(field := scan.field + text)
  }

  /** The reader's state after the rest of the text. */
  function Read(scan: Scan, rest: string): Scan
    decreases |rest|
  {
    if rest == "" then scan
    else if scan.quoted then
      if rest[0] == '"' && 1 < |rest| && rest[1] == '"' then Read(Append(scan, "\""), rest[2..])
      else if rest[0] == '"' then Read(scan.(quoted := false), rest[1..])
      else Read(Append(scan, rest[..1]), rest[1..])
    else if rest[0] == '"' then Read(scan.(quoted := true), rest[1..])
    else if rest[0] == ',' then Read(EndCell(scan), rest[1..])
    else if rest[0] == '\n' then Read(EndRow(scan), rest[1..])
    else if rest[0] != '\r' then Read(Append(scan, rest[..1]), rest[1..])
    else Read(scan, rest[1..])
  }

  function WithoutBom(text: string): string {
    if text != "" && text[0] == BOM then text[1..] else text
  }

  function Rows(text: string): seq<Row> {
    EndRow(Read(Start, WithoutBom(text))).rows
  }

  function CellAt(cells: Row, index: nat): string {
    if index < |cells| then cells[index] else ""
  }

  /** Repeated headers: the last one wins. */
  function ToRecord(headers: Row, cells: Row): Record {
    if headers == [] then map[]
    else
      var last := |headers| - 1;
      ToRecord(headers[..last], cells)[headers[last] := CellAt(cells, last)]
  }

  function Records(rows: seq<Row>): seq<Record> {
    if rows == [] then [] else seq(|rows| - 1, i requires 0 <= i < |rows| - 1 => ToRecord(rows[0], rows[i + 1]))
  }

  function ParsedCsv(text: string): seq<Record> {
    Records(Rows(text))
  }

  method ParseCsv(csv: string) returns (records: seq<Record>)
    ensures records == ParsedCsv(csv)
  {
    var rows: seq<Row> := [];
    var row: Row := [];
    var field := "";
    var quoted := false;
    var input := WithoutBom(csv);
    var index := 0;
    assert input[0..] == input;
    while index < |input|
      invariant index <= |input|
      invariant Read(Scan(rows, row, field, quoted), input[index..]) == Read(Start, input)
    {
      var character := input[index];
      assert input[index..][1..] == input[index + 1..] && input[index..][..1] == [character];
      if quoted {
        if character == '"' && index + 1 < |input| && input[index + 1] == '"' {
          assert input[index..][2..] == input[index + 2..];
          field := field + "\"";
          index := index + 1;
        } else if character == '"' {
          quoted := false;
        } else {
          field := field + [character];
        }
      } else if character == '"' {
        quoted := true;
      } else if character == ',' {
        row, field := row + [field], "";
      } else if character == '\n' {
        row := row + [field];
        if !Blank(row) {
          rows := rows + [row];
        }
        row, field := [], "";
      } else if character != '\r' {
        field := field + [character];
      }
      index := index + 1;
    }
    row := row + [field];
    if !Blank(row) {
      rows := rows + [row];
    }
    records := Records(rows);
  }

  /** How one line is written: which cells are quoted, and which line break follows. */
  datatype Line = Line(quotes: seq<bool>, crlf: bool)

  datatype Layout = Layout(bom: bool, lines: seq<Line>, final: bool)

  predicate MustQuote(cell: string) {
    '"' in cell || ',' in cell || '\n' in cell || '\r' in cell
  }

  predicate LineFits(row: Row, line: Line) {
    |line.quotes| == |row| && forall i :: 0 <= i < |row| && MustQuote(row[i]) ==> line.quotes[i]
  }

  predicate Fits(rows: seq<Row>, lines: seq<Line>) {
    |lines| == |rows| && forall i :: 0 <= i < |rows| ==> LineFits(rows[i], lines[i])
  }

  function Escaped(cell: string): string {
    if cell == "" then "" else (if cell[0] == '"' then "\"\"" else cell[..1]) + Escaped(cell[1..])
  }

  function PrintCell(cell: string, quoted: bool): string {
    if quoted then "\"" + Escaped(cell) + "\"" else cell
  }

  function PrintRow(row: Row, quotes: seq<bool>): string
    requires |quotes| == |row|
  {
    if row == [] then ""
    else if |row| == 1 then PrintCell(row[0], quotes[0])
    else PrintCell(row[0], quotes[0]) + "," + PrintRow(row[1..], quotes[1..])
  }

  function Break(crlf: bool): string {
    if crlf then "\r\n" else "\n"
  }

  function PrintRows(rows: seq<Row>, lines: seq<Line>, final: bool): string
    requires Fits(rows, lines)
  {
    if rows == [] then ""
    else
      PrintRow(rows[0], lines[0].quotes)
      + (if 1 < |rows| || final then Break(lines[0].crlf) else "")
      + PrintRows(rows[1..], lines[1..], final)
  }

  function Print(rows: seq<Row>, layout: Layout): string
    requires Fits(rows, layout.lines)
  {
    (if layout.bom then [BOM] else "") + PrintRows(rows, layout.lines, layout.final)
  }

  function Kept(row: Row): seq<Row> {
    if Blank(row) then [] else [row]
  }

  function NonBlank(rows: seq<Row>): seq<Row> {
    if rows == [] then []
    else Kept(rows[0]) + NonBlank(rows[1..])
  }

  /** The first cell can be mistaken for one behind a byte order mark. */
  predicate LooksMarked(rows: seq<Row>, layout: Layout)
    requires Fits(rows, layout.lines)
  {
    && !layout.bom && rows != [] && rows[0] != []
    && rows[0][0] != "" && rows[0][0][0] == BOM && !layout.lines[0].quotes[0]
  }

  lemma {:induction false} ReadPlain(scan: Scan, cell: string, rest: string)
    requires !scan.quoted && !MustQuote(cell)
    ensures Read(scan, cell + rest) == Read(Append(scan, cell), rest)
    decreases |cell|
  {
    if cell == "" {
      assert cell + rest == rest && scan.field + cell == scan.field;
    } else {
      assert cell == cell[..1] + cell[1..];
      assert (cell + rest)[1..] == cell[1..] + rest && (cell + rest)[..1] == cell[..1];
      ReadPlain(Append(scan, cell[..1]), cell[1..], rest);
      assert scan.field + cell[..1] + cell[1..] == scan.field + cell;
    }
  }

  lemma {:induction false} ReadEscaped(scan: Scan, cell: string, rest: string)
    requires scan.quoted && (rest == "" || rest[0] != '"')
    ensures Read(scan, Escaped(cell) + "\"" + rest) == Read(Append(scan, cell).(quoted := false), rest)
    decreases |cell|
  {
    var text := Escaped(cell) + "\"" + rest;
    if cell == "" {
      assert text == "\"" + rest && text[1..] == rest;
      assert scan.field + cell == scan.field;
    } else {
      var tail := Escaped(cell[1..]) + "\"" + rest;
      ReadEscaped(Append(scan, cell[..1]), cell[1..], rest);
      assert scan.field + cell[..1] + cell[1..] == scan.field + cell;
      if cell[0] == '"' {
        assert text == "\"\"" + tail && text[2..] == tail;
        assert cell[..1] == "\"";
      } else {
        assert text == cell[..1] + tail && text[1..] == tail && text[..1] == cell[..1];
      }
    }
  }

  lemma ReadCell(scan: Scan, cell: string, quoted: bool, rest: string)
    requires !scan.quoted && scan.field == "" && (MustQuote(cell) ==> quoted)
    requires rest == "" || rest[0] != '"'
    ensures Read(scan, PrintCell(cell, quoted) + rest) == Read(scan.(field := cell), rest)
  {
    assert "" + cell == cell;
    if quoted {
      var text := PrintCell(cell, quoted) + rest;
      assert text == "\"" + (Escaped(cell) + "\"" + rest);
      assert text[1..] == Escaped(cell) + "\"" + rest;
      ReadEscaped(scan.(quoted := true), cell, rest);
    } else {
      ReadPlain(scan, cell, rest);
    }
  }

  /** The reader in front of a row's last cell, which is still open. */
  function AtLastCell(scan: Scan, row: Row): Scan
    requires row != []
  {
    scan.(row := scan.row + row[..|row| - 1], field := row[|row| - 1])
  }

  lemma SkipCell(scan: Scan, row: Row)
    requires 1 < |row|
    ensures AtLastCell(scan.(row := scan.row + [row[0]]), row[1..]) == AtLastCell(scan, row)
  {
    assert [row[0]] + row[1..][..|row| - 2] == row[..|row| - 1];
  }

  lemma ReadFirstCell(scan: Scan, row: Row, line: Line, rest: string)
    requires !scan.quoted && scan.field == "" && 1 < |row| && LineFits(row, line)
    ensures Read(scan, PrintRow(row, line.quotes) + rest)
            == Read(scan.(row := scan.row + [row[0]]), PrintRow(row[1..], line.quotes[1..]) + rest)
  {
    var tail := PrintRow(row[1..], line.quotes[1..]) + rest;
    PrintRowFirst(row, line.quotes);
    assert PrintRow(row, line.quotes) + rest == PrintCell(row[0], line.quotes[0]) + ("," + tail);
    ReadCell(scan, row[0], line.quotes[0], "," + tail);
    assert ("," + tail)[1..] == tail;
  }

  /** A printed row is read back up to its last cell. */
  lemma {:induction false} ReadRow(scan: Scan, row: Row, line: Line, rest: string)
    requires !scan.quoted && scan.field == "" && row != [] && LineFits(row, line)
    requires rest == "" || rest[0] != '"'
    ensures Read(scan, PrintRow(row, line.quotes) + rest) == Read(AtLastCell(scan, row), rest)
    decreases |row|
  {
    if |row| == 1 {
      ReadCell(scan, row[0], line.quotes[0], rest);
      assert scan.row + row[..0] == scan.row;
    } else {
      ReadFirstCell(scan, row, line, rest);
      ReadRow(scan.(row := scan.row + [row[0]]), row[1..], Line(line.quotes[1..], line.crlf), rest);
      SkipCell(scan, row);
    }
  }

  lemma ReadBreak(scan: Scan, crlf: bool, rest: string)
    requires !scan.quoted
    ensures Read(scan, Break(crlf) + rest) == Read(EndRow(scan), rest)
  {
    var text := Break(crlf) + rest;
    if crlf {
      assert text[1..] == "\n" + rest && text[1..][1..] == rest;
    } else {
      assert text[1..] == rest;
    }
  }

  /** Ending a printed row, of no cells or more, files it unless it is blank. */
  lemma ReadLine(scan: Scan, row: Row, line: Line, rest: string, ending: string)
    requires !scan.quoted && scan.field == "" && scan.row == [] && LineFits(row, line)
    requires ending == Break(line.crlf)
    ensures Read(scan, PrintRow(row, line.quotes) + ending + rest) == Read(Filed(scan, row), rest)
  {
    assert PrintRow(row, line.quotes) + ending + rest == PrintRow(row, line.quotes) + (ending + rest);
    if row == [] {
      assert PrintRow(row, line.quotes) + (ending + rest) == ending + rest;
      ReadBreak(scan, line.crlf, rest);
      assert scan.rows + [] == scan.rows;
      assert EndRow(scan) == Filed(scan, row);
    } else {
      ReadRow(scan, row, line, ending + rest);
      ReadBreak(AtLastCell(scan, row), line.crlf, rest);
      EndsAt(scan, row);
    }
  }

  function Filed(scan: Scan, row: Row): Scan {
    scan.(rows := scan.rows + Kept(row))
  }

  lemma EndsAt(scan: Scan, row: Row)
    requires scan.field == "" && scan.row == [] && row != []
    ensures EndRow(AtLastCell(scan, row)) == Filed(scan, row)
  {
    assert row[..|row| - 1] + [row[|row| - 1]] == row;
    assert [] + row[..|row| - 1] == row[..|row| - 1];
    assert scan.rows + [] == scan.rows;
  }

  /** The last row, without a line break. */
  lemma ReadLastLine(scan: Scan, row: Row, line: Line)
    requires !scan.quoted && scan.field == "" && scan.row == [] && LineFits(row, line)
    ensures EndRow(Read(scan, PrintRow(row, line.quotes))).rows == Filed(scan, row).rows
  {
    if row == [] {
      assert scan.rows + [] == scan.rows;
    } else {
      ReadRow(scan, row, line, "");
      assert PrintRow(row, line.quotes) + "" == PrintRow(row, line.quotes);
      EndsAt(scan, row);
    }
  }

  lemma {:induction false} ReadRows(scan: Scan, rows: seq<Row>, lines: seq<Line>, final: bool)
    requires !scan.quoted && scan.field == "" && scan.row == [] && Fits(rows, lines)
    ensures EndRow(Read(scan, PrintRows(rows, lines, final))).rows == scan.rows + NonBlank(rows)
    decreases |rows|
  {
    if rows == [] {
      assert scan.rows + [] == scan.rows;
    } else if 1 < |rows| || final {
      ReadLine(scan, rows[0], lines[0], PrintRows(rows[1..], lines[1..], final), Break(lines[0].crlf));
      ReadRows(Filed(scan, rows[0]), rows[1..], lines[1..], final);
      FiledFirst(scan, rows);
    } else {
      ReadLastLine(scan, rows[0], lines[0]);
      assert PrintRows(rows, lines, final) == PrintRow(rows[0], lines[0].quotes);
      assert NonBlank(rows[1..]) == [];
      FiledFirst(scan, rows);
    }
  }

  lemma FiledFirst(scan: Scan, rows: seq<Row>)
    requires rows != []
    ensures Filed(scan, rows[0]).rows + NonBlank(rows[1..]) == scan.rows + NonBlank(rows)
  {
    Regroup(scan.rows, Kept(rows[0]), NonBlank(rows[1..]));
  }

  lemma Regroup<T>(first: seq<T>, second: seq<T>, third: seq<T>)
    ensures (first + second) + third == first + (second + third)
  {
  }

  /** The rows as the reader sees them: an unprotected mark is eaten. */
  function Seen(rows: seq<Row>, layout: Layout): seq<Row>
    requires Fits(rows, layout.lines)
  {
    if LooksMarked(rows, layout) then [[rows[0][0][1..]] + rows[0][1..]] + rows[1..] else rows
  }

  lemma SeenFits(rows: seq<Row>, layout: Layout)
    requires Fits(rows, layout.lines)
    ensures Fits(Seen(rows, layout), layout.lines)
  {
    if LooksMarked(rows, layout) {
      var cell := rows[0][0];
      assert cell == [cell[0]] + cell[1..];
      assert !MustQuote(cell[1..]);
    }
  }

  /** A row's text starts with the mark only if its first cell does, unquoted. */
  lemma RowStart(row: Row, quotes: seq<bool>, rest: string)
    requires |quotes| == |row| && (rest == "" || rest[0] != BOM)
    ensures var text := PrintRow(row, quotes) + rest;
      text != "" && text[0] == BOM <==> row != [] && row[0] != "" && row[0][0] == BOM && !quotes[0]
  {
    if row != [] {
      var cell := PrintCell(row[0], quotes[0]);
      assert cell != "" ==> (PrintRow(row, quotes) + rest)[0] == cell[0];
    }
  }

  lemma UnmarkedRow(row: Row, quotes: seq<bool>)
    requires |quotes| == |row| && row != [] && row[0] != "" && !quotes[0]
    ensures PrintRow(row, quotes) != ""
    ensures PrintRow(row, quotes)[1..] == PrintRow([row[0][1..]] + row[1..], quotes)
  {
    var less := [row[0][1..]] + row[1..];
    assert less[1..] == row[1..];
    if 1 < |row| {
      TailOf(row[0], "," + PrintRow(row[1..], quotes[1..]));
      PrintRowFirst(row, quotes);
      PrintRowFirst(less, quotes);
    }
  }

  lemma TailOf(first: string, rest: string)
    requires first != ""
    ensures (first + rest)[1..] == first[1..] + rest
  {
  }

  lemma PrintRowFirst(row: Row, quotes: seq<bool>)
    requires |quotes| == |row| && 1 < |row|
    ensures PrintRow(row, quotes) == PrintCell(row[0], quotes[0]) + ("," + PrintRow(row[1..], quotes[1..]))
  {
  }

  /** The text behind the first row. */
  function Behind(others: seq<Row>, lines: seq<Line>, final: bool): string
    requires lines != [] && Fits(others, lines[1..])
  {
    (if others != [] || final then Break(lines[0].crlf) else "") + PrintRows(others, lines[1..], final)
  }

  lemma PrintRowsSplit(row: Row, others: seq<Row>, lines: seq<Line>, final: bool)
    requires lines != [] && LineFits(row, lines[0]) && Fits(others, lines[1..]) && Fits([row] + others, lines)
    ensures PrintRows([row] + others, lines, final) == PrintRow(row, lines[0].quotes) + Behind(others, lines, final)
  {
    assert ([row] + others)[1..] == others;
  }

  lemma RowsStart(rows: seq<Row>, layout: Layout)
    requires Fits(rows, layout.lines) && !layout.bom
    ensures var text := PrintRows(rows, layout.lines, layout.final);
      text != "" && text[0] == BOM <==> LooksMarked(rows, layout)
  {
    if rows != [] {
      var rest := (if 1 < |rows| || layout.final then Break(layout.lines[0].crlf) else "")
                  + PrintRows(rows[1..], layout.lines[1..], layout.final);
      assert PrintRows(rows, layout.lines, layout.final) == PrintRow(rows[0], layout.lines[0].quotes) + rest;
      RowStart(rows[0], layout.lines[0].quotes, rest);
    }
  }

  /** What is left of the printed text once a leading mark has been stripped. */
  lemma StrippedText(rows: seq<Row>, layout: Layout)
    requires Fits(rows, layout.lines)
    ensures Fits(Seen(rows, layout), layout.lines)
    ensures WithoutBom(Print(rows, layout)) == PrintRows(Seen(rows, layout), layout.lines, layout.final)
  {
    var text := PrintRows(rows, layout.lines, layout.final);
    SeenFits(rows, layout);
    if layout.bom {
      assert Print(rows, layout) == [BOM] + text;
    } else {
      assert Print(rows, layout) == text;
      RowsStart(rows, layout);
      if LooksMarked(rows, layout) {
        StrippedRows(rows, layout);
      }
    }
  }

  lemma StrippedRows(rows: seq<Row>, layout: Layout)
    requires Fits(rows, layout.lines) && LooksMarked(rows, layout) && Fits(Seen(rows, layout), layout.lines)
    ensures PrintRows(rows, layout.lines, layout.final) != ""
    ensures PrintRows(rows, layout.lines, layout.final)[1..] == PrintRows(Seen(rows, layout), layout.lines, layout.final)
  {
    var row, others, lines := rows[0], rows[1..], layout.lines;
    var less := [row[0][1..]] + row[1..];
    var behind := Behind(others, lines, layout.final);
    assert rows == [row] + others;
    UnmarkedRow(row, lines[0].quotes);
    PrintRowsSplit(row, others, lines, layout.final);
    assert LineFits(Seen(rows, layout)[0], lines[0]);
    PrintRowsSplit(less, others, lines, layout.final);
    TailOf(PrintRow(row, lines[0].quotes), behind);
  }

  /** Reading back any printed rows gives those that are not blank, the mark aside. */
  lemma ReadsBack(rows: seq<Row>, layout: Layout)
    requires Fits(rows, layout.lines)
    ensures Rows(Print(rows, layout)) == NonBlank(Seen(rows, layout))
  {
    StrippedText(rows, layout);
    ReadRows(Start, Seen(rows, layout), layout.lines, layout.final);
    assert [] + NonBlank(Seen(rows, layout)) == NonBlank(Seen(rows, layout));
  }

  predicate Distinct(headers: Row) {
    forall i, j :: 0 <= i < j < |headers| ==> headers[i] != headers[j]
  }

  /** `record` holds exactly the cells of a row under its headers. */
  predicate RecordOf(record: Record, headers: Row, cells: Row)
    requires |cells| == |headers|
  {
    && (forall header :: header in record ==> header in headers)
    && (forall i :: 0 <= i < |headers| ==> headers[i] in record && record[headers[i]] == cells[i])
  }

  /** The table the text was printed from: a header row, and rows of its width. */
  predicate Table(rows: seq<Row>) {
    rows != [] && Distinct(rows[0]) && forall i :: 0 < i < |rows| ==> |rows[i]| == |rows[0]|
  }

  predicate IsTable(records: seq<Record>, rows: seq<Row>)
    requires Table(rows)
  {
    |records| == |rows| - 1 && forall i :: 0 <= i < |records| ==> RecordOf(records[i], rows[0], rows[i + 1])
  }

  lemma {:induction false} ToRecordIsRecord(headers: Row, cells: Row)
    requires |cells| == |headers| && Distinct(headers)
    ensures RecordOf(ToRecord(headers, cells), headers, cells)
  {
    if headers != [] {
      var last := |headers| - 1;
      ToRecordIsRecord(headers[..last], cells[..last]);
      ToRecordIgnores(headers[..last], cells);
      assert forall i :: 0 <= i < last ==> headers[..last][i] == headers[i] && headers[i] != headers[last];
    }
  }

  /** Cells beyond the headers do not matter. */
  lemma {:induction false} ToRecordIgnores(headers: Row, cells: Row)
    requires |headers| <= |cells|
    ensures ToRecord(headers, cells) == ToRecord(headers, cells[..|headers|])
  {
    if headers != [] {
      var last := |headers| - 1;
      ToRecordIgnores(headers[..last], cells);
      ToRecordIgnores(headers[..last], cells[..|headers|]);
      assert cells[..|headers|][..last] == cells[..last];
    }
  }

  lemma {:induction false} ToRecordKeys(headers: Row, cells: Row)
    ensures forall header :: header in ToRecord(headers, cells) <==> header in headers
  {
    if headers != [] {
      var last := |headers| - 1;
      ToRecordKeys(headers[..last], cells);
      assert headers == headers[..last] + [headers[last]];
    }
  }

  /** Headers need not be distinct, nor rows as wide as the header: of equal headers the last one
      counts, a missing cell is empty, and a surplus one is left out. */
  lemma {:induction false} LastHeaderCounts(headers: Row, cells: Row, index: nat)
    requires index < |headers| && headers[index] !in headers[index + 1..]
    ensures ToRecord(headers, cells).Keys == set header | header in headers
    ensures ToRecord(headers, cells)[headers[index]] == if index < |cells| then cells[index] else ""
  {
    ToRecordKeys(headers, cells);
    assert headers[index] in headers;
    var last := |headers| - 1;
    if index < last {
      assert headers[last] in headers[index + 1..];
      assert headers[..last][index + 1..] <= headers[index + 1..];
      LastHeaderCounts(headers[..last], cells, index);
    }
  }

  function WithoutReturns(text: string): string {
    if text == "" then ""
    else (if text[0] == '\r' then "" else text[..1]) + WithoutReturns(text[1..])
  }

  /** Outside quotes a carriage return counts for nothing, wherever it stands. */
  lemma {:induction false} ReturnsAreSkipped(scan: Scan, text: string)
    requires !scan.quoted && '"' !in text
    ensures Read(scan, text) == Read(scan, WithoutReturns(text))
    decreases |text|
  {
    if text != "" {
      var rest := text[1..];
      var less := WithoutReturns(text);
      assert text[0] in text && forall i :: 0 <= i < |rest| ==> rest[i] == text[i + 1];
      if text[0] == '\r' {
        assert less == WithoutReturns(rest);
        ReturnsAreSkipped(scan, rest);
      } else {
        assert less[0] == text[0] && less[1..] == WithoutReturns(rest);
        ReturnsAreSkipped(if text[0] == ',' then EndCell(scan) else if text[0] == '\n' then EndRow(scan) else Append(scan, text[..1]), rest);
        assert less[..1] == text[..1];
      }
    }
  }

  /** A quote still open at the end is closed there. */
  lemma {:induction false} OpenQuoteEnds(scan: Scan, text: string)
    requires Read(scan, text).quoted
    ensures Read(scan, text + "\"") == Read(scan, text).(quoted := false)
    decreases |text|
  {
    var longer := text + "\"";
    if text == "" {
      assert longer[1..] == "";
    } else {
      assert longer[0] == text[0] && longer[1..] == text[1..] + "\"" && longer[..1] == text[..1];
      if scan.quoted && text[0] == '"' && 1 < |text| && text[1] == '"' {
        assert longer[2..] == text[2..] + "\"";
        OpenQuoteEnds(Append(scan, "\""), text[2..]);
      } else if scan.quoted && text[0] == '"' {
        OpenQuoteEnds(scan.(quoted := false), text[1..]);
      } else {
        OpenQuoteEnds(
          if scan.quoted then Append(scan, text[..1])
          else if text[0] == '"' then scan.(quoted := true)
          else if text[0] == ',' then EndCell(scan)
          else if text[0] == '\n' then EndRow(scan)
          else if text[0] == '\r' then scan
          else Append(scan, text[..1]),
          text[1..]);
      }
    }
  }

  lemma {:induction false} NonBlankLength(rows: seq<Row>)
    ensures |NonBlank(rows)| <= |rows|
    ensures |NonBlank(rows)| == |rows| <==> forall i :: 0 <= i < |rows| ==> !Blank(rows[i])
    ensures |NonBlank(rows)| == |rows| ==> NonBlank(rows) == rows
  {
    if rows != [] {
      NonBlankLength(rows[1..]);
      assert rows == [rows[0]] + rows[1..];
      if |NonBlank(rows)| == |rows| {
        forall i | 0 <= i < |rows|
          ensures !Blank(rows[i])
        {
          assert i > 0 ==> rows[i] == rows[1..][i - 1];
        }
      } else if !Blank(rows[0]) {
        var i :| 0 <= i < |rows[1..]| && Blank(rows[1..][i]);
        assert Blank(rows[i + 1]);
      }
    }
  }

  /** The round trip holds exactly when there are no rows below the header, or no row is blank and
      the first header, unless a mark precedes it or quotes protect it, does not itself begin
      with the mark. */
  lemma RoundTrip(rows: seq<Row>, layout: Layout)
    requires Table(rows) && Fits(rows, layout.lines)
    ensures IsTable(ParsedCsv(Print(rows, layout)), rows)
            <==> |rows| == 1 || (!LooksMarked(rows, layout) && forall i :: 0 <= i < |rows| ==> !Blank(rows[i]))
  {
    var records := ParsedCsv(Print(rows, layout));
    var seen := Seen(rows, layout);
    ReadsBack(rows, layout);
    NonBlankLength(seen);
    if |rows| == 1 {
      assert |records| == 0;
    } else if |NonBlank(seen)| == |seen| {
      if LooksMarked(rows, layout) {
        EatenMarkShows(rows, layout);
      } else {
        forall i | 0 <= i < |records|
          ensures RecordOf(records[i], rows[0], rows[i + 1])
        {
          ToRecordIsRecord(rows[0], rows[i + 1]);
        }
      }
    } else {
      assert |records| < |rows| - 1;
    }
  }

  /** Without its mark the first header is a different one. */
  lemma EatenMarkShows(rows: seq<Row>, layout: Layout)
    requires Table(rows) && 1 < |rows| && Fits(rows, layout.lines) && LooksMarked(rows, layout)
    requires NonBlank(Seen(rows, layout)) == Seen(rows, layout)
    ensures !IsTable(Records(NonBlank(Seen(rows, layout))), rows)
  {
    var seen := Seen(rows, layout);
    var record := Records(seen)[0];
    ToRecordKeys(seen[0], seen[1]);
    var header := rows[0][0];
    assert forall i :: 0 < i < |seen[0]| ==> seen[0][i] == rows[0][i];
    assert |seen[0][0]| < |header|;
    assert header !in seen[0];
    assert header !in record;
  }
}
