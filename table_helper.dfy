/**
 * The full-screen table helper as an object: its offsets, cap and marker text are fields the pager
 * sets, and `render` recomputes the column widths in place before handing a sub-grid to the table
 * renderer. Every method is proved against the functions of `Layout` on the helper's snapshot.
 */
module TableHelper {
  import opened Base
  import opened Records
  import opened Layout

  class FullScreenTable {
    // the terminal size, read once and then cached
    const screenWidth: nat
    const screenHeight: nat

    var rowOffset: nat
    var colOffset: nat
    var maxColWidth: int
    var moreColsText: string
    var colsWidth: map<string, int>
    var totalColsWidth: int
    var headers: seq<string>
    var rows: seq<Record>

    /** The state the layout functions are evaluated on. */
    function Snapshot(): Sheet
      reads this
    {
      Sheet(headers, rows, rowOffset, colOffset, maxColWidth, moreColsText, screenWidth, screenHeight)
    }

    /** The width table agrees with the layout: one entry per header, and the total is their sum. */
    ghost predicate WidthsRecorded()
      reads this
      requires Shaped(headers, rows)
    {
      && (forall k :: 0 <= k < |headers| ==> headers[k] in colsWidth && colsWidth[headers[k]] == Widths(Snapshot())[k])
      && totalColsWidth == Total(Snapshot())
    }

    constructor(screenWidth: nat, screenHeight: nat)
      ensures Snapshot() == Sheet([], [], 0, 0, 0, "...", screenWidth, screenHeight)
      ensures colsWidth == map[] && totalColsWidth == 0
    {
      this.screenWidth := screenWidth;
      this.screenHeight := screenHeight;
      rowOffset := 0;
      colOffset := 0;
      maxColWidth := 0;
      moreColsText := "...";
      colsWidth := map[];
      totalColsWidth := 0;
      headers := [];
      rows := [];
    }

    method SetHeaders(headers: seq<string>)
      modifies this`headers
      ensures this.headers == headers
    {
      this.headers := headers;
    }

    method SetRows(rows: seq<Record>)
      modifies this`rows
      ensures this.rows == rows
    {
      this.rows := rows;
    }

    method SetRowOffset(rowOffset: nat)
      modifies this`rowOffset
      ensures this.rowOffset == rowOffset
    {
      this.rowOffset := rowOffset;
    }

    method SetColOffset(colOffset: nat)
      modifies this`colOffset
      ensures this.colOffset == colOffset
    {
      this.colOffset := colOffset;
    }

    method SetMaxColWidth(maxColWidth: int)
      modifies this`maxColWidth
      ensures this.maxColWidth == maxColWidth
    {
      this.maxColWidth := maxColWidth;
    }

    method SetMoreColsText(moreColsText: string)
      modifies this`moreColsText
      ensures this.moreColsText == moreColsText
    {
      this.moreColsText := moreColsText;
    }

    /** `computeColsWidth`: header lengths first, raised by every value of every row, then summed
        in header order. */
    method ComputeColsWidth()
      requires Shaped(headers, rows)
      modifies this`colsWidth, this`totalColsWidth
      ensures Snapshot() == old(Snapshot())
      ensures WidthsRecorded()
    {
      colsWidth := map[];
      for k := 0 to |headers|
        invariant forall m :: 0 <= m < k ==> headers[m] in colsWidth && colsWidth[headers[m]] == GetLength(headers[m], maxColWidth)
      {
        colsWidth := colsWidth[headers[k] := GetLength(headers[k], maxColWidth)];
      }
      for i := 0 to |rows|
        invariant forall m :: 0 <= m < |headers| ==>
                    HasColumn(rows[..i], m) && headers[m] in colsWidth && colsWidth[headers[m]] == ColumnWidth(headers[m], rows[..i], m, maxColWidth)
      {
        RaiseWidths(rows[i]);
        forall m | 0 <= m < |headers|
          ensures HasColumn(rows[..i + 1], m)
          ensures headers[m] in colsWidth && colsWidth[headers[m]] == ColumnWidth(headers[m], rows[..i + 1], m, maxColWidth)
        {
          ShapedHasColumn(headers, rows, m);
          ColumnWidthSnoc(headers[m], rows, i, m, maxColWidth);
        }
      }
      assert rows[..|rows|] == rows;
      totalColsWidth := SumWidths(colsWidth, headers, Widths(Snapshot()));
    }

    /** The inner loop of `computeColsWidth`: each field of one row raises its column's width to
        the field's length when that is larger. */
    method RaiseWidths(row: Record)
      requires Distinct(headers) && Columns(row) == headers
      requires forall m :: 0 <= m < |headers| ==> headers[m] in colsWidth
      modifies this`colsWidth
      ensures forall m :: 0 <= m < |headers| ==>
                headers[m] in colsWidth && colsWidth[headers[m]] == Max(GetLength(row[m].value, maxColWidth), old(colsWidth)[headers[m]])
    {
      for j := 0 to |row|
        invariant forall m :: 0 <= m < |headers| ==>
                    headers[m] in colsWidth && colsWidth[headers[m]] == if m < j then Max(GetLength(row[m].value, maxColWidth), old(colsWidth)[headers[m]])
                                             else old(colsWidth)[headers[m]]
      {
        var header, value := row[j].column, row[j].value;
        assert header == headers[j];
        var len := GetLength(value, maxColWidth);
        if len > colsWidth[header] {
          colsWidth := colsWidth[header := len];
        }
      }
    }

    /** `computeNbColsToShow`: the scan below, run on the helper's own width table. */
    method ComputeNbColsToShow() returns (n: int)
      requires Shaped(headers, rows) && WidthsRecorded() && NbColsDefined(Snapshot())
      ensures n == NbCols(Snapshot())
      ensures n >= -1
    {
      ghost var s := Snapshot();
      WidthsPositive(s);
      var reserved := 1;
      if colOffset > 0 {
        reserved := reserved + |moreColsText| + 3;
      }
      reserved := reserved + |moreColsText| + 3;
      assert reserved == Reserved(s);
      n := CountColumns(screenWidth, reserved, colsWidth, headers, colOffset, Widths(s));
      assert n == NbCols(s);
    }

    /** `computeTable`: the whole table when it fits the screen, otherwise the window of columns
        between markers and of rows from `rowOffset`, cells truncated to the cap. */
    method ComputeTable() returns (g: Grid)
      requires LayoutDefined(Snapshot())
      modifies this`colsWidth, this`totalColsWidth
      ensures Snapshot() == old(Snapshot())
      ensures WidthsRecorded()
      ensures g == Table(Snapshot())
    {
      ComputeColsWidth();
      var width := screenWidth;
      if width >= totalColsWidth {
        var loaded := rows;
        g := Grid(headers, seq(|loaded|, i requires 0 <= i < |loaded| => Values(loaded[i])));
        assert g.rows == Table(Snapshot()).rows;
        return;
      }
      ghost var s := Snapshot();
      var nbColsToShow := ComputeNbColsToShow();
      var hs := HeaderLine(s, nbColsToShow);
      var rs := NarrowRows(s, nbColsToShow);
      g := Grid(hs, rs);
    }

    /** The header loop of `computeTable`: the marker once scrolled right, the shown headers, the
        closing marker. */
    method HeaderLine(ghost s: Sheet, nbColsToShow: int) returns (hs: seq<string>)
      requires s == Snapshot() && LayoutDefined(s) && screenWidth < Total(s)
      requires nbColsToShow == NbCols(s)
      ensures hs == Table(s).headers
    {
      ShownInRange(s);
      ghost var shown := ShownHeaders(s);
      hs := [];
      if colOffset > 0 {
        hs := hs + [moreColsText];
      }
      var c := colOffset;
      while c < colOffset + nbColsToShow
        invariant colOffset <= c <= colOffset + |shown|
        invariant hs == Lead(s) + shown[..c - colOffset]
      {
        assert shown[..c + 1 - colOffset] == shown[..c - colOffset] + [headers[c]];
        hs := hs + [headers[c]];
        c := c + 1;
      }
      assert shown[..|shown|] == shown;
      hs := hs + [moreColsText];
    }

    /** The row loop of `computeTable`: one narrow row for each position from `rowOffset`, one
        fewer than the smaller of the loaded rows and the screen rows. */
    method NarrowRows(ghost s: Sheet, nbColsToShow: int) returns (rs: seq<seq<string>>)
      requires s == Snapshot() && LayoutDefined(s) && screenWidth < Total(s)
      requires nbColsToShow == NbCols(s)
      ensures rs == Table(s).rows
    {
      ghost var want := Table(s).rows;
      rs := [];
      var i := rowOffset;
      while i < rowOffset + Min(|rows|, NbRowsToShow(screenHeight)) - 1
        invariant rowOffset <= i <= rowOffset + |want|
        invariant rs == want[..i - rowOffset]
      {
        var data := RowCells(s, i, nbColsToShow);
        assert want[..i + 1 - rowOffset] == want[..i - rowOffset] + [data];
        rs := rs + [data];
        i := i + 1;
      }
      assert want[..|want|] == want;
    }

    /** One row of the narrow view: the marker once scrolled right, the shown cells, the marker. */
    method RowCells(ghost s: Sheet, i: nat, nbColsToShow: int) returns (data: seq<string>)
      requires s == Snapshot() && LayoutDefined(s) && screenWidth < Total(s)
      requires nbColsToShow == NbCols(s)
      ensures data == NarrowRow(s, i)
    {
      ShownInRange(s);
      ghost var want := NarrowCells(s, i);
      data := [];
      if colOffset > 0 {
        data := data + [moreColsText];
      }
      var j := colOffset;
      while j < colOffset + nbColsToShow
        invariant colOffset <= j <= colOffset + |want|
        invariant data == Lead(s) + want[..j - colOffset]
      {
        assert want[j - colOffset] == Truncate(CellAt(s, i, j), maxColWidth);
        var value := if i < |rows| then Get(rows[i], headers[j]) else "";
        assert value == CellAt(s, i, j);
        if |value| > maxColWidth {
          value := Substr(value, maxColWidth - 4) + " ...";
        }
        assert want[..j + 1 - colOffset] == want[..j - colOffset] + [value];
        data := data + [value];
        j := j + 1;
      }
      assert want[..|want|] == want;
      data := data + [moreColsText];
    }

    /** `render`: the table, then one blank line per row the screen has room for beyond the
        loaded ones. */
    method Render() returns (f: Frame)
      requires LayoutDefined(Snapshot())
      modifies this`colsWidth, this`totalColsWidth
      ensures Snapshot() == old(Snapshot())
      ensures WidthsRecorded()
      ensures f == FrameOf(Snapshot())
    {
      var table := ComputeTable();
      var trailer: seq<string> := [];
      if |rows| < NbRowsToShow(screenHeight) {
        var diff := NbRowsToShow(screenHeight) - |rows|;
        for k := 0 to diff
          invariant trailer == seq(k, _ => "")
        {
          trailer := trailer + [""];
        }
      }
      f := Frame(table, trailer);
    }
  }

  /** The last loop of `computeColsWidth`: the widths added up in header order. */
  method SumWidths(colsWidth: map<string, int>, headers: seq<string>, ghost ws: seq<int>) returns (total: int)
    requires |ws| == |headers|
    requires forall m :: 0 <= m < |headers| ==> headers[m] in colsWidth && colsWidth[headers[m]] == ws[m]
    ensures total == Sum(ws)
  {
    total := 0;
    for k := 0 to |headers|
      invariant total == Sum(ws[..k])
    {
      SumSnoc(ws, k);
      total := total + colsWidth[headers[k]];
    }
    assert ws[..|headers|] == ws;
  }

  /** The loop of `computeNbColsToShow`: starting from the reserved width, add the width of the
      column at `colOffset + nbRows`, counting it only while the screen stays strictly wider; once
      it does not, the loop ends and the count is one too many. `ws` are the widths from colOffset. */
  method CountColumns(screenWidth: int, reserved: int, colsWidth: map<string, int>, headers: seq<string>,
                      colOffset: nat, ghost widths: seq<int>) returns (nbRows: int)
    requires |widths| == |headers|
    requires forall k :: 0 <= k < |headers| ==> headers[k] in colsWidth && colsWidth[headers[k]] == widths[k] >= 1
    requires screenWidth < reserved || FitCount(Suffix(widths, colOffset), screenWidth - reserved) < |Suffix(widths, colOffset)|
    ensures nbRows == FitCount(Suffix(widths, colOffset), screenWidth - reserved) - 1
  {
    ghost var ws := Suffix(widths, colOffset);
    forall k | 0 <= k < |ws| ensures ws[k] >= 1 {
      assert ws[k] == widths[colOffset + k];
    }
    ghost var budget := screenWidth - reserved;
    ghost var fit := FitCount(ws, budget);
    if budget < 0 {
      FitCountNegative(ws, budget);
    }
    var width := reserved;
    nbRows := 0;
    while screenWidth >= width
      invariant 0 <= nbRows <= fit
      invariant screenWidth < reserved ==> nbRows == 0 && width == reserved
      invariant (width == reserved + Sum(ws[..nbRows]) && (nbRows > 0 ==> width < screenWidth))
                || (nbRows == fit && nbRows < |ws| && width >= screenWidth)
      decreases screenWidth - width
    {
      assert screenWidth >= reserved && fit < |ws|;
      assert ws[nbRows] == widths[colOffset + nbRows];
      assert ws[nbRows] >= 1 && headers[colOffset + nbRows] in colsWidth && colsWidth[headers[colOffset + nbRows]] == ws[nbRows];
      FitCountNext(ws, budget, nbRows);
      width := width + colsWidth[headers[colOffset + nbRows]];
      if screenWidth > width {
        SumSnoc(ws, nbRows);
        nbRows := nbRows + 1;
      }
    }
    if screenWidth < width {
      nbRows := nbRows - 1;
    }
  }

  /** A shaped row list has every column index of the header list. */
  lemma ShapedHasColumn(headers: seq<string>, rows: seq<Record>, m: nat)
    requires Shaped(headers, rows) && m < |headers|
    ensures HasColumn(rows, m)
  {
    forall i | 0 <= i < |rows| ensures m < |rows[i]| {
      assert |Columns(rows[i])| == |rows[i]|;
    }
  }
}
