/**
 The text tables of the command line: column widths are measured in bytes, padding in
 characters. Every table lines up all the same, and its cells can be read back.
 */
module TableLayout {
  import opened Text
  import opened Values

  /** The strings.Builder a table is written to. */
  class Builder {
    var text: string

    constructor ()
      ensures text == ""
    {
      text := "";
    }

    method Write(s: string)
      modifies this
      ensures text == old(text) + s
    {
      text := text + s;
    }
  }

  function Spaces(n: nat): string {
    seq(n, _ => ' ')
  }

  /** The verb %-*s: left-justified, padded with spaces to a width counted in characters. */
  function Pad(s: string, width: nat): string {
    s + Spaces(if |s| < width then width - |s| else 0)
  }

  // ---------- What the tables are ----------

  function Widened(widths: seq<nat>, row: seq<string>): seq<nat> {
    seq(|widths|, j requires 0 <= j < |widths| => if j < |row| then Max(widths[j], ByteLength(row[j])) else widths[j])
  }

  /** The width of each column: the longest of its header and cells, in bytes. */
  function Widths(headers: seq<string>, data: seq<seq<string>>): (w: seq<nat>)
    ensures |w| == |headers|
  {
    if data == [] then seq(|headers|, j requires 0 <= j < |headers| => ByteLength(headers[j]))
    else Widened(Widths(headers, data[..|data| - 1]), data[|data| - 1])
  }

  function CellText(row: seq<string>, widths: seq<nat>, i: nat): string
    requires i < |row|
  {
    (if i < |widths| then Pad(row[i], widths[i]) else row[i]) + if i < |row| - 1 then "  " else ""
  }

  /** The first n cells of a row. */
  function CellsText(row: seq<string>, widths: seq<nat>, n: nat): string
    requires n <= |row|
  {
    if n == 0 then "" else CellsText(row, widths, n - 1) + CellText(row, widths, n - 1)
  }

  function LineText(row: seq<string>, widths: seq<nat>): string {
    CellsText(row, widths, |row|)
  }

  function RowsText(rows: seq<seq<string>>, widths: seq<nat>): string {
    if rows == [] then ""
    else RowsText(rows[..|rows| - 1], widths) + LineText(rows[|rows| - 1], widths) + "\n"
  }

  function TableText(headers: seq<string>, data: seq<seq<string>>): string {
    if data == [] then "" else RowsText([headers] + data, Widths(headers, data))
  }

  // ---------- How they are written ----------

  method FormatRow(sb: Builder, row: seq<string>, maxW: array<nat>)
    modifies sb
    ensures sb.text == old(sb.text) + LineText(row, maxW[..]) + "\n"
  {
    ghost var written, widths := sb.text, maxW[..];
    for i := 0 to |row|
      invariant sb.text == written + CellsText(row, widths, i)
    {
      ghost var cells := CellsText(row, widths, i);
      if i < maxW.Length {
        sb.Write(Pad(row[i], maxW[i]));
      } else {
        sb.Write(row[i]);
      }
      if i < |row| - 1 {
        sb.Write("  ");
      }
      Regroup(written, cells, if i < |widths| then Pad(row[i], widths[i]) else row[i],
              if i < |row| - 1 then "  " else "");
    }
    sb.Write("\n");
  }

  lemma Regroup(a: string, b: string, c: string, d: string)
    ensures a + b + c + d == a + (b + (c + d))
    ensures a + b + c == a + (b + (c + ""))
  {
  }

  /** The first half of formatTable: the widths, column by column. */
  method MeasureColumns(headers: seq<string>, data: seq<seq<string>>) returns (maxW: array<nat>)
    ensures fresh(maxW) && maxW[..] == Widths(headers, data)
  {
    maxW := new nat[|headers|];
    for i := 0 to |headers|
      invariant forall k | 0 <= k < i :: maxW[k] == ByteLength(headers[k])
    {
      maxW[i] := ByteLength(headers[i]);
    }
    assert maxW[..] == Widths(headers, []);

    for r := 0 to |data|
      invariant maxW[..] == Widths(headers, data[..r])
    {
      var row := data[r];
      ghost var before := maxW[..];
      for j := 0 to |row|
        invariant forall k | 0 <= k < maxW.Length ::
                    maxW[k] == if k < j then Max(before[k], ByteLength(row[k])) else before[k]
      {
        if j < maxW.Length {
          maxW[j] := Max(maxW[j], ByteLength(row[j]));
        }
      }
      assert maxW[..] == Widened(before, row);
      assert data[..r + 1][..r] == data[..r];
    }
    assert data[..|data|] == data;
  }

  lemma NextRow(rows: seq<seq<string>>, widths: seq<nat>, r: nat)
    requires r < |rows|
    ensures RowsText(rows[..r + 1], widths) == RowsText(rows[..r], widths) + LineText(rows[r], widths) + "\n"
  {
    assert rows[..r + 1][..r] == rows[..r];
  }

  /** formatTable, for any headers and any rows, ragged ones included. */
  method FormatTable(headers: seq<string>, data: seq<seq<string>>) returns (text: string)
    ensures text == TableText(headers, data)
    ensures data == [] ==> text == ""
  {
    if |data| == 0 {
      return "";
    }
    var maxW := MeasureColumns(headers, data);
    var sb := new Builder();
    ghost var widths, rows := maxW[..], [headers] + data;
    FormatRow(sb, headers, maxW);
    NextRow(rows, widths, 0);
    for r := 0 to |data|
      invariant maxW[..] == widths && sb.text == RowsText(rows[..r + 1], widths)
    {
      FormatRow(sb, data[r], maxW);
      NextRow(rows, widths, r + 1);
    }
    assert rows[..|data| + 1] == rows;
    text := sb.text;
  }
}
