/**
 Alignment and recoverability of the tables: every line has the same length, every column
 starts at the same offset on every line, and a reader that knows only the headers gets
 back the cells.
 */
module TableReading {
  import opened Text
  import opened Values
  import opened TableLayout

  /** Every cell fits its column, as it does in a rectangular table. */
  ghost predicate Fits(row: seq<string>, widths: seq<nat>) {
    |row| == |widths| && forall j | 0 <= j < |row| :: |row[j]| <= widths[j]
  }

  ghost predicate Rectangular(headers: seq<string>, data: seq<seq<string>>) {
    forall r | r in data :: |r| == |headers|
  }

  /** The offset of column j: all columns before it, and two spaces after each. */
  function Offset(widths: seq<nat>, j: nat): nat
    requires j <= |widths|
  {
    if j == 0 then 0 else Offset(widths, j - 1) + widths[j - 1] + 2
  }

  function Total(widths: seq<nat>): nat {
    if widths == [] then 0 else Total(widths[..|widths| - 1]) + widths[|widths| - 1]
  }

  /** The widths of the columns before it, and two for each of them. */
  lemma {:induction false} OffsetIsSum(widths: seq<nat>, j: nat)
    requires j <= |widths|
    ensures Offset(widths, j) == Total(widths[..j]) + 2 * j
  {
    if j > 0 {
      assert widths[..j][..j - 1] == widths[..j - 1];
      OffsetIsSum(widths, j - 1);
    }
  }

  lemma {:induction false} WidthsFit(headers: seq<string>, data: seq<seq<string>>, row: seq<string>)
    requires Rectangular(headers, data) && (row == headers || row in data)
    ensures forall j | 0 <= j < |headers| :: ByteLength(row[j]) <= Widths(headers, data)[j]
    decreases |data|
  {
    if data != [] {
      var before, last := data[..|data| - 1], data[|data| - 1];
      assert data == before + [last];
      if row != last {
        WidthsFit(headers, before, row);
      }
    }
  }

  /** A column is no wider than it has to be: some header or cell of it has exactly its width in bytes. */
  lemma {:induction false} WidthIsAttained(headers: seq<string>, data: seq<seq<string>>, j: nat)
    requires Rectangular(headers, data) && j < |headers|
    ensures exists row :: (row == headers || row in data) && |row| == |headers|
                          && ByteLength(row[j]) == Widths(headers, data)[j]
    decreases |data|
  {
    if data == [] {
      assert ByteLength(headers[j]) == Widths(headers, data)[j];
    } else {
      var before, last := data[..|data| - 1], data[|data| - 1];
      assert data == before + [last];
      WidthIsAttained(headers, before, j);
      var row :| (row == headers || row in before) && |row| == |headers|
                 && ByteLength(row[j]) == Widths(headers, before)[j];
      var widest := if ByteLength(last[j]) > ByteLength(row[j]) then last else row;
      assert ByteLength(widest[j]) == Widths(headers, data)[j];
    }
  }

  lemma RowsFit(headers: seq<string>, data: seq<seq<string>>, row: seq<string>)
    requires Rectangular(headers, data) && (row == headers || row in data)
    ensures Fits(row, Widths(headers, data))
  {
    WidthsFit(headers, data, row);
    forall j | 0 <= j < |row|
      ensures |row[j]| <= Widths(headers, data)[j]
    {
      BytesCoverCharacters(row[j]);
    }
  }

  lemma {:induction false} CellsLength(row: seq<string>, widths: seq<nat>, n: nat)
    requires Fits(row, widths) && n <= |row|
    ensures |CellsText(row, widths, n)| == if n < |row| || n == 0 then Offset(widths, n) else Offset(widths, n) - 2
  {
    if n > 0 {
      CellsLength(row, widths, n - 1);
    }
  }

  /**
   Alignment. All lines of a rectangular table, the header's included, have the same number
   of characters: the widths plus two for each gap. Cells need not be ASCII.
   */
  lemma LinesHaveEqualLength(headers: seq<string>, data: seq<seq<string>>, row: seq<string>)
    requires Rectangular(headers, data) && (row == headers || row in data) && headers != []
    ensures |LineText(row, Widths(headers, data))| == Offset(Widths(headers, data), |headers|) - 2
  {
    RowsFit(headers, data, row);
    CellsLength(row, Widths(headers, data), |row|);
  }

  lemma {:induction false} CellsArePrefix(row: seq<string>, widths: seq<nat>, m: nat, n: nat)
    requires m <= n <= |row|
    ensures CellsText(row, widths, m) <= CellsText(row, widths, n)
    decreases n
  {
    if m < n {
      CellsArePrefix(row, widths, m, n - 1);
    }
  }

  /** Where column j ends on a line: at the next column, or at the end of the line. */
  function Limit(widths: seq<nat>, j: nat): nat
    requires j < |widths|
  {
    if j + 1 < |widths| then Offset(widths, j + 1) else Offset(widths, j) + widths[j]
  }

  /** A cell's text is the cell followed by spaces up to where its column ends. */
  lemma CellIsPadded(row: seq<string>, widths: seq<nat>, j: nat)
    requires Fits(row, widths) && j < |row|
    ensures Offset(widths, j) + |row[j]| <= Limit(widths, j)
    ensures CellText(row, widths, j) == row[j] + Spaces(Limit(widths, j) - Offset(widths, j) - |row[j]|)
  {
    var pad := widths[j] - |row[j]|;
    if j + 1 < |row| {
      assert Limit(widths, j) == Offset(widths, j) + widths[j] + 2;
      assert Spaces(pad) + "  " == Spaces(pad + 2);
      assert row[j] + Spaces(pad) + "  " == row[j] + (Spaces(pad) + "  ");
    } else {
      assert row[j] + Spaces(pad) + "" == row[j] + Spaces(pad);
    }
  }

  lemma Slice(whole: string, upTo: string, before: string, part: string)
    requires upTo <= whole && upTo == before + part
    ensures whole[|before|..|upTo|] == part
  {
    assert whole[|before|..|upTo|] == upTo[|before|..];
  }

  lemma ColumnBounds(row: seq<string>, widths: seq<nat>, j: nat)
    requires Fits(row, widths) && j < |row|
    ensures |CellsText(row, widths, j)| == Offset(widths, j)
    ensures |CellsText(row, widths, j + 1)| == Limit(widths, j)
  {
    CellsLength(row, widths, j);
    CellsLength(row, widths, j + 1);
  }

  lemma CellIsSlice(row: seq<string>, widths: seq<nat>, j: nat)
    requires Fits(row, widths) && j < |row|
    ensures Offset(widths, j) <= Limit(widths, j) <= |LineText(row, widths)|
    ensures j + 1 == |row| ==> Limit(widths, j) == |LineText(row, widths)|
    ensures LineText(row, widths)[Offset(widths, j)..Limit(widths, j)] == CellText(row, widths, j)
  {
    ColumnBounds(row, widths, j);
    CellsArePrefix(row, widths, j + 1, |row|);
    Slice(LineText(row, widths), CellsText(row, widths, j + 1), CellsText(row, widths, j), CellText(row, widths, j));
  }

  /** In any row, longer or shorter than the headers: every cell is on the line, and comes after the one before it. */
  lemma EveryCellIsWritten(row: seq<string>, widths: seq<nat>, j: nat)
    requires j < |row|
    ensures var at := |CellsText(row, widths, j)|;
            && at + |row[j]| <= |LineText(row, widths)|
            && LineText(row, widths)[at..at + |row[j]|] == row[j]
            && (j + 1 < |row| ==> at + |row[j]| + 2 <= |CellsText(row, widths, j + 1)|)
  {
    var before, cell, line := CellsText(row, widths, j), CellText(row, widths, j), LineText(row, widths);
    CellsArePrefix(row, widths, j + 1, |row|);
    Slice(line, CellsText(row, widths, j + 1), before, cell);
    assert row[j] <= cell;
    assert line[|before|..|before| + |row[j]|] == line[|before|..|before| + |cell|][..|row[j]|];
  }

  /** Column j of a line starts at the offset of the column: the cell, then spaces only. */
  lemma ColumnText(row: seq<string>, widths: seq<nat>, j: nat)
    requires Fits(row, widths) && j < |row|
    ensures Offset(widths, j) + |row[j]| <= Limit(widths, j) <= |LineText(row, widths)|
    ensures j + 1 == |row| ==> Limit(widths, j) == |LineText(row, widths)|
    ensures LineText(row, widths)[Offset(widths, j)..Limit(widths, j)] ==
            row[j] + Spaces(Limit(widths, j) - Offset(widths, j) - |row[j]|)
  {
    CellIsSlice(row, widths, j);
    CellIsPadded(row, widths, j);
  }

  // ---------- Reading a line ----------

  function TrimRight(s: string): string {
    if s != "" && s[|s| - 1] == ' ' then TrimRight(s[..|s| - 1]) else s
  }

  /** A cell that can be read back: no line break in it and no space at its end. */
  predicate Readable(cell: string) {
    '\n' !in cell && (cell != "" ==> cell[|cell| - 1] != ' ')
  }

  lemma {:induction false} TrimPadding(cell: string, n: nat)
    requires cell != "" ==> cell[|cell| - 1] != ' '
    ensures TrimRight(cell + Spaces(n)) == cell
  {
    if n == 0 {
      assert cell + Spaces(0) == cell;
    } else {
      assert (cell + Spaces(n))[..|cell| + n - 1] == cell + Spaces(n - 1);
      TrimPadding(cell, n - 1);
    }
  }

  /** The first position from i on that holds no space. */
  function SkipSpaces(line: string, i: nat): (k: nat)
    requires i <= |line|
    ensures i <= k <= |line|
    decreases |line| - i
  {
    if i < |line| && line[i] == ' ' then SkipSpaces(line, i + 1) else i
  }

  lemma {:induction false} SkipsTo(line: string, i: nat, k: nat)
    requires i <= k < |line| && line[k] != ' ' && forall p | i <= p < k :: line[p] == ' '
    ensures SkipSpaces(line, i) == k
    decreases k - i
  {
    if i < k {
      SkipsTo(line, i + 1, k);
    }
  }

  /** The next column start a reader finds on the header line, after a header at the given start. */
  function NextStart(line: string, header: string, start: nat): nat {
    if start + |header| <= |line| then SkipSpaces(line, start + |header|) else |line|
  }

  /** The column starts a reader finds: each header is followed by spaces up to the next. */
  function Starts(line: string, headers: seq<string>, n: nat): (starts: seq<nat>)
    requires n <= |headers|
    ensures |starts| == n
  {
    if n == 0 then []
    else
      var before := Starts(line, headers, n - 1);
      before + [if n == 1 then 0 else NextStart(line, headers[n - 2], before[n - 2])]
  }

  /** Headers that can be told apart from padding: none empty, none starting with a space. */
  predicate Visible(headers: seq<string>) {
    && headers != []
    && forall j | 0 <= j < |headers| :: headers[j] != "" && headers[j][0] != ' ' && '\n' !in headers[j]
  }

  lemma NextStartIsOffset(headers: seq<string>, widths: seq<nat>, j: nat)
    requires Visible(headers) && Fits(headers, widths) && j + 1 < |headers|
    ensures NextStart(LineText(headers, widths), headers[j], Offset(widths, j)) == Offset(widths, j + 1)
  {
    var line := LineText(headers, widths);
    var lo, hi := Offset(widths, j), Offset(widths, j + 1);
    ColumnText(headers, widths, j);
    ColumnText(headers, widths, j + 1);
    forall p | lo + |headers[j]| <= p < hi
      ensures line[p] == ' '
    {
      assert line[p] == line[lo..hi][p - lo];
    }
    assert line[hi] == line[hi..Limit(widths, j + 1)][0];
    assert headers[j + 1] != "";
    SkipsTo(line, lo + |headers[j]|, hi);
  }

  lemma {:induction false} StartsAreOffsets(headers: seq<string>, widths: seq<nat>, n: nat)
    requires Visible(headers) && Fits(headers, widths) && n <= |headers|
    ensures forall j | 0 <= j < n :: Starts(LineText(headers, widths), headers, n)[j] == Offset(widths, j)
  {
    if n > 0 {
      StartsAreOffsets(headers, widths, n - 1);
      if n > 1 {
        NextStartIsOffset(headers, widths, n - 2);
      }
    }
  }

  /** The cell between two column starts, trimmed. */
  function Cell(line: string, start: nat, end: nat): string {
    if start <= end <= |line| then TrimRight(line[start..end]) else ""
  }

  /** Slice a line at the column starts and trim. */
  function Cells(line: string, starts: seq<nat>): seq<string> {
    seq(|starts|, j requires 0 <= j < |starts| =>
      Cell(line, starts[j], if j + 1 < |starts| then starts[j + 1] else |line|))
  }

  lemma CellIsRead(row: seq<string>, widths: seq<nat>, j: nat)
    requires Fits(row, widths) && j < |row| && Readable(row[j])
    ensures var line := LineText(row, widths);
            Cell(line, Offset(widths, j), if j + 1 < |row| then Offset(widths, j + 1) else |line|) == row[j]
  {
    ColumnText(row, widths, j);
    TrimPadding(row[j], Limit(widths, j) - Offset(widths, j) - |row[j]|);
  }

  lemma LineIsRead(row: seq<string>, widths: seq<nat>, starts: seq<nat>)
    requires Fits(row, widths) && forall c | c in row :: Readable(c)
    requires |starts| == |row| && forall j | 0 <= j < |starts| :: starts[j] == Offset(widths, j)
    ensures Cells(LineText(row, widths), starts) == row
  {
    var cells := Cells(LineText(row, widths), starts);
    forall j | 0 <= j < |row|
      ensures cells[j] == row[j]
    {
      assert row[j] in row;
      CellIsRead(row, widths, j);
    }
  }

  // ---------- Reading a table ----------

  /** The lines of a text, each ended by a line break; an unfinished last line is dropped. */
  function Lines(text: string, i: nat := 0): seq<string>
    requires i <= |text|
    decreases |text|, |text| - i
  {
    if i == |text| then []
    else if text[i] == '\n' then [text[..i]] + Lines(text[i + 1..])
    else Lines(text, i + 1)
  }

  lemma {:induction false} FirstLine(line: string, rest: string, i: nat)
    requires '\n' !in line && i <= |line|
    ensures Lines(line + "\n" + rest, i) == [line] + Lines(rest)
    decreases |line| - i
  {
    var text := line + "\n" + rest;
    if i < |line| {
      assert text[i] == line[i];
      FirstLine(line, rest, i + 1);
    } else {
      assert text[..i] == line && text[i + 1..] == rest;
    }
  }

  lemma {:induction false} NoBreakInCells(row: seq<string>, widths: seq<nat>, n: nat)
    requires n <= |row| && forall c | c in row :: '\n' !in c
    ensures '\n' !in CellsText(row, widths, n)
  {
    if n > 0 {
      NoBreakInCells(row, widths, n - 1);
      assert row[n - 1] in row;
    }
  }

  lemma Shift(a: string, b: string, c: string)
    ensures (a + b) + c == a + (b + c)
  {
  }

  /** The text of one row. */
  function RowText(row: seq<string>, widths: seq<nat>): string {
    LineText(row, widths) + "\n"
  }

  lemma RowsTextBack(rows: seq<seq<string>>, widths: seq<nat>)
    requires rows != []
    ensures RowsText(rows, widths) == RowsText(rows[..|rows| - 1], widths) + RowText(rows[|rows| - 1], widths)
  {
    Shift(RowsText(rows[..|rows| - 1], widths), LineText(rows[|rows| - 1], widths), "\n");
  }

  lemma {:induction false} RowsTextFront(rows: seq<seq<string>>, widths: seq<nat>)
    requires rows != []
    ensures RowsText(rows, widths) == RowText(rows[0], widths) + RowsText(rows[1..], widths)
  {
    var n := |rows| - 1;
    RowsTextBack(rows, widths);
    if n == 0 {
      assert RowsText(rows[..0], widths) == "" && RowsText(rows[1..], widths) == "";
    } else {
      var init, rest := rows[..n], rows[1..];
      RowsTextFront(init, widths);
      RowsTextBack(rest, widths);
      assert rest[..n - 1] == init[1..];
      Shift(RowText(rows[0], widths), RowsText(init[1..], widths), RowText(rows[n], widths));
    }
  }

  /** No cell holds a line break. */
  ghost predicate BreakFree(rows: seq<seq<string>>) {
    forall i, j | 0 <= i < |rows| && 0 <= j < |rows[i]| :: '\n' !in rows[i][j]
  }

  /** The lines of some rows, top down. */
  function LineTexts(rows: seq<seq<string>>, widths: seq<nat>): (lines: seq<string>)
    ensures |lines| == |rows|
    ensures forall i | 0 <= i < |rows| :: lines[i] == LineText(rows[i], widths)
  {
    if rows == [] then [] else [LineText(rows[0], widths)] + LineTexts(rows[1..], widths)
  }

  lemma LinesFront(rows: seq<seq<string>>, widths: seq<nat>)
    requires rows != [] && BreakFree(rows)
    ensures Lines(RowsText(rows, widths)) == [LineText(rows[0], widths)] + Lines(RowsText(rows[1..], widths))
  {
    RowsTextFront(rows, widths);
    NoBreakInCells(rows[0], widths, |rows[0]|);
    FirstLine(LineText(rows[0], widths), RowsText(rows[1..], widths), 0);
  }

  /** Splitting the text of some rows at line breaks gives back their lines. */
  lemma {:induction false} LinesOfRows(rows: seq<seq<string>>, widths: seq<nat>)
    requires BreakFree(rows)
    ensures Lines(RowsText(rows, widths)) == LineTexts(rows, widths)
    decreases |rows|
  {
    if rows == [] {
      assert RowsText(rows, widths) == "";
    } else {
      LinesFront(rows, widths);
      LinesOfRows(rows[1..], widths);
    }
  }

  function ReadLines(lines: seq<string>, starts: seq<nat>): seq<seq<string>> {
    if lines == [] then [] else [Cells(lines[0], starts)] + ReadLines(lines[1..], starts)
  }

  /** Read a table back, given its headers. */
  function ReadTable(headers: seq<string>, text: string): seq<seq<string>> {
    var lines := Lines(text);
    if lines == [] then [] else ReadLines(lines[1..], Starts(lines[0], headers, |headers|))
  }

  lemma {:induction false} ReadLinesAt(lines: seq<string>, starts: seq<nat>, i: nat)
    requires i < |lines|
    ensures |ReadLines(lines, starts)| == |lines| && ReadLines(lines, starts)[i] == Cells(lines[i], starts)
  {
    if |lines| > 1 {
      ReadLinesAt(lines[1..], starts, if i == 0 then 0 else i - 1);
    }
  }

  ghost predicate Presentable(headers: seq<string>, data: seq<seq<string>>) {
    && Visible(headers) && Rectangular(headers, data)
    && forall r, c | r in data && c in r :: Readable(c)
  }

  lemma TableLine(headers: seq<string>, data: seq<seq<string>>, i: nat)
    requires Presentable(headers, data) && data != [] && i <= |data|
    ensures var lines := Lines(TableText(headers, data));
            |lines| == |data| + 1 && lines[i] == LineText(([headers] + data)[i], Widths(headers, data))
  {
    var rows := [headers] + data;
    forall i, j | 0 <= i < |rows| && 0 <= j < |rows[i]|
      ensures '\n' !in rows[i][j]
    {
      if i > 0 {
        assert rows[i] in data && rows[i][j] in rows[i];
        assert Readable(rows[i][j]);
      }
    }
    LinesOfRows(rows, Widths(headers, data));
  }

  lemma RowIsReadBack(headers: seq<string>, data: seq<seq<string>>, row: seq<string>)
    requires Presentable(headers, data) && row in data
    ensures var widths := Widths(headers, data);
            Cells(LineText(row, widths), Starts(LineText(headers, widths), headers, |headers|)) == row
  {
    var widths := Widths(headers, data);
    RowsFit(headers, data, headers);
    RowsFit(headers, data, row);
    StartsAreOffsets(headers, widths, |headers|);
    LineIsRead(row, widths, Starts(LineText(headers, widths), headers, |headers|));
  }

  lemma TableRowIsRead(headers: seq<string>, data: seq<seq<string>>, i: nat)
    requires Presentable(headers, data) && i < |data|
    ensures var read := ReadTable(headers, TableText(headers, data));
            |read| == |data| && read[i] == data[i]
  {
    var lines := Lines(TableText(headers, data));
    TableLine(headers, data, 0);
    TableLine(headers, data, i + 1);
    assert ([headers] + data)[0] == headers && ([headers] + data)[i + 1] == data[i];
    ReadLinesAt(lines[1..], Starts(lines[0], headers, |headers|), i);
    assert lines[1..][i] == lines[i + 1];
    RowIsReadBack(headers, data, data[i]);
  }

  /**
   Round trip. From the text of any rectangular table, a reader that knows the headers but
   not the widths gets back every cell that has no line break and no trailing space.
   */
  lemma TableIsReadBack(headers: seq<string>, data: seq<seq<string>>)
    requires Presentable(headers, data)
    ensures ReadTable(headers, TableText(headers, data)) == data
  {
    var read := ReadTable(headers, TableText(headers, data));
    if data != [] {
      TableRowIsRead(headers, data, 0);
      forall i | 0 <= i < |data|
        ensures read[i] == data[i]
      {
        TableRowIsRead(headers, data, i);
      }
    }
  }

  /** So two tables with the same headers never look the same unless they are. */
  lemma LayoutIsInjective(headers: seq<string>, data: seq<seq<string>>, other: seq<seq<string>>)
    requires Presentable(headers, data) && Presentable(headers, other)
    requires TableText(headers, data) == TableText(headers, other)
    ensures data == other
  {
    TableIsReadBack(headers, data);
    TableIsReadBack(headers, other);
  }

  // ---------- Users and groups side by side ----------

  const ENTITY_HEADERS := ["Users", "Groups"]

  function Name(names: seq<string>, i: nat): string {
    if i < |names| then names[i] else ""
  }

  function EntityRows(users: seq<string>, groups: seq<string>): (rows: seq<seq<string>>)
    ensures |rows| == Max(|users|, |groups|)
    ensures forall i | 0 <= i < |rows| :: rows[i] == [Name(users, i), Name(groups, i)]
  {
    seq(Max(|users|, |groups|), i requires 0 <= i < Max(|users|, |groups|) => [Name(users, i), Name(groups, i)])
  }

  /** formatEntitySetTable */
  method FormatEntitySetTable(users: seq<string>, groups: seq<string>) returns (text: string)
    ensures text == TableText(ENTITY_HEADERS, EntityRows(users, groups))
  {
    var total := Max(|users|, |groups|);
    var data := new seq<string>[total](_ => []);
    for i := 0 to total
      invariant forall k | 0 <= k < i :: data[k] == [Name(users, k), Name(groups, k)]
    {
      var user, group := "", "";
      if i < |users| {
        user := users[i];
      }
      if i < |groups| {
        group := groups[i];
      }
      data[i] := [user, group];
    }
    assert data[..] == EntityRows(users, groups);
    text := FormatTable(ENTITY_HEADERS, data[..]);
  }

  /** The non-empty cells of a column, from the top. */
  function ColumnNames(rows: seq<seq<string>>, j: nat, i: nat := 0): seq<string>
    decreases |rows| - i
  {
    if i >= |rows| || j >= |rows[i]| || rows[i][j] == "" then [] else [rows[i][j]] + ColumnNames(rows, j, i + 1)
  }

  lemma {:induction false} ColumnIsNames(rows: seq<seq<string>>, j: nat, names: seq<string>, i: nat)
    requires i <= |names| <= |rows| && forall k | 0 <= k < |rows| :: j < |rows[k]| && rows[k][j] == Name(names, k)
    requires forall n | n in names :: n != ""
    ensures ColumnNames(rows, j, i) == names[i..]
    decreases |names| - i
  {
    if i < |names| {
      assert names[i] in names;
      ColumnIsNames(rows, j, names, i + 1);
      assert names[i..] == [names[i]] + names[i + 1..];
    }
  }

  lemma EntityRowsArePresentable(users: seq<string>, groups: seq<string>)
    requires forall n | n in users :: Readable(n)
    requires forall n | n in groups :: Readable(n)
    ensures Presentable(ENTITY_HEADERS, EntityRows(users, groups))
  {
    var rows := EntityRows(users, groups);
    forall r | r in rows
      ensures |r| == 2 && Readable(r[0]) && Readable(r[1])
    {
      var i :| 0 <= i < |rows| && rows[i] == r;
      assert r == [Name(users, i), Name(groups, i)];
    }
    assert ENTITY_HEADERS[0] == "Users" && ENTITY_HEADERS[1] == "Groups";
  }

  /** Both lists of an entity set, however different in length, can be read off its table. */
  lemma EntitySetIsReadBack(users: seq<string>, groups: seq<string>)
    requires forall n | n in users :: n != "" && Readable(n)
    requires forall n | n in groups :: n != "" && Readable(n)
    ensures var rows := ReadTable(ENTITY_HEADERS, TableText(ENTITY_HEADERS, EntityRows(users, groups)));
            ColumnNames(rows, 0) == users && ColumnNames(rows, 1) == groups
  {
    var rows := EntityRows(users, groups);
    EntityRowsArePresentable(users, groups);
    TableIsReadBack(ENTITY_HEADERS, rows);
    ColumnIsNames(rows, 0, users, 0);
    ColumnIsNames(rows, 1, groups, 0);
  }
}
