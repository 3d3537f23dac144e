/**
 * The arithmetic of the full-screen table: column widths, how many columns fit between the
 * "more columns" markers, the sub-grid handed to the table renderer, cell truncation and the
 * blank lines that pad the output. Everything here is a function of a `Sheet`, the helper's state.
 */
module Layout {
  import opened Base
  import opened Records

  /** The helper's state at the moment it renders. Screen size is whatever the terminal reported. */
  datatype Sheet = Sheet(
    headers: seq<string>, rows: seq<Record>,
    rowOffset: nat, colOffset: nat,
    maxColWidth: int, moreColsText: string,
    screenWidth: nat, screenHeight: nat)

  /** What the table renderer receives: a header line and rows of cells, in display order. */
  datatype Grid = Grid(headers: seq<string>, rows: seq<seq<string>>)

  // ----- column widths -----

  /** `getLength`: the display width a text asks for, three characters of padding, capped. */
  function GetLength(text: string, maxColWidth: int): (len: int)
    ensures len <= |text| + 3 && len <= maxColWidth
    ensures len == |text| + 3 || len == maxColWidth
  {
    if |text| + 3 > maxColWidth then maxColWidth else |text| + 3
  }

  /** Every row has a k-th field. */
  predicate HasColumn(rows: seq<Record>, k: nat)
  {
    forall i :: 0 <= i < |rows| ==> k < |rows[i]|
  }

  /** Width of column k: its header's length, raised by every value in rows, in order. */
  function ColumnWidth(header: string, rows: seq<Record>, k: nat, maxColWidth: int): int
    requires HasColumn(rows, k)
    decreases |rows|
  {
    if rows == [] then GetLength(header, maxColWidth)
    else
      var len := GetLength(rows[|rows| - 1][k].value, maxColWidth);
      var w := ColumnWidth(header, rows[..|rows| - 1], k, maxColWidth);
      if len > w then len else w
  }

  /** A column is as wide as its widest entry (header included), never wider than the cap. */
  lemma {:induction false} ColumnWidthIsMax(header: string, rows: seq<Record>, k: nat, maxColWidth: int)
    requires HasColumn(rows, k)
    ensures ColumnWidth(header, rows, k, maxColWidth) <= maxColWidth
    ensures ColumnWidth(header, rows, k, maxColWidth) >= GetLength(header, maxColWidth)
    ensures forall i :: 0 <= i < |rows| ==>
              ColumnWidth(header, rows, k, maxColWidth) >= GetLength(rows[i][k].value, maxColWidth)
    ensures ColumnWidth(header, rows, k, maxColWidth) == GetLength(header, maxColWidth)
            || exists i :: 0 <= i < |rows| && ColumnWidth(header, rows, k, maxColWidth) == GetLength(rows[i][k].value, maxColWidth)
    decreases |rows|
  {
    if rows != [] {
      var init := rows[..|rows| - 1];
      ColumnWidthIsMax(header, init, k, maxColWidth);
      assert forall i :: 0 <= i < |init| ==> init[i] == rows[i];
    }
  }

  /** Taking one more row into account raises the width to that row's length when it is larger. */
  lemma ColumnWidthSnoc(header: string, rows: seq<Record>, i: nat, k: nat, maxColWidth: int)
    requires HasColumn(rows, k) && i < |rows|
    ensures HasColumn(rows[..i], k) && HasColumn(rows[..i + 1], k)
    ensures ColumnWidth(header, rows[..i + 1], k, maxColWidth)
         == Max(GetLength(rows[i][k].value, maxColWidth), ColumnWidth(header, rows[..i], k, maxColWidth))
  {
    assert rows[..i + 1][..i] == rows[..i];
  }

  /** Loading more rows never makes a column narrower. */
  lemma {:induction false} ColumnWidthGrows(header: string, rows: seq<Record>, more: seq<Record>, k: nat, maxColWidth: int)
    requires HasColumn(rows, k) && HasColumn(more, k)
    ensures HasColumn(rows + more, k)
    ensures ColumnWidth(header, rows, k, maxColWidth) <= ColumnWidth(header, rows + more, k, maxColWidth)
    decreases |more|
  {
    assert HasColumn(rows + more, k) by {
      forall i | 0 <= i < |rows + more| ensures k < |(rows + more)[i]| {
        if i >= |rows| { assert (rows + more)[i] == more[i - |rows|]; }
      }
    }
    if more != [] {
      var init := more[..|more| - 1];
      assert (rows + more)[..|rows + more| - 1] == rows + init;
      assert HasColumn(init, k);
      ColumnWidthGrows(header, rows, init, k, maxColWidth);
      assert ColumnWidth(header, rows + init, k, maxColWidth) <= ColumnWidth(header, rows + more, k, maxColWidth);
    } else {
      assert rows + more == rows;
    }
  }

  /** The width of every column, in header order. */
  function Widths(s: Sheet): (ws: seq<int>)
    requires Shaped(s.headers, s.rows)
    ensures |ws| == |s.headers|
  {
    seq(|s.headers|, k requires 0 <= k < |s.headers| => ColumnWidth(s.headers[k], s.rows, k, s.maxColWidth))
  }

  function Sum(ws: seq<int>): int
    decreases |ws|
  {
    if ws == [] then 0 else Sum(ws[..|ws| - 1]) + ws[|ws| - 1]
  }

  /** `totalColsWidth`: the sum of all column widths. */
  function Total(s: Sheet): int
    requires Shaped(s.headers, s.rows)
  {
    Sum(Widths(s))
  }

  lemma {:induction false} SumCons(ws: seq<int>)
    requires ws != []
    ensures Sum(ws) == ws[0] + Sum(ws[1..])
    decreases |ws|
  {
    if |ws| > 1 {
      var init := ws[..|ws| - 1];
      SumCons(init);
      assert init[1..] == ws[1..][..|ws[1..]| - 1];
    }
  }

  lemma SumSnoc(ws: seq<int>, n: nat)
    requires n < |ws|
    ensures Sum(ws[..n + 1]) == Sum(ws[..n]) + ws[n]
  {
    assert ws[..n + 1][..n] == ws[..n];
  }

  lemma {:induction false} SumAtMost(ws: seq<int>, bound: int)
    requires forall i :: 0 <= i < |ws| ==> ws[i] <= bound
    ensures Sum(ws) <= |ws| * bound
    decreases |ws|
  {
    if ws != [] {
      SumAtMost(ws[..|ws| - 1], bound);
    }
  }

  /** No column is wider than the cap, so the whole table is shown whenever the screen has room for
      every column at the cap. */
  lemma TotalAtMostCaps(s: Sheet)
    requires Shaped(s.headers, s.rows)
    ensures Total(s) <= |s.headers| * s.maxColWidth
    ensures s.screenWidth >= |s.headers| * s.maxColWidth ==> s.screenWidth >= Total(s)
  {
    forall k | 0 <= k < |s.headers|
      ensures Widths(s)[k] <= s.maxColWidth
    {
      ColumnWidthIsMax(s.headers[k], s.rows, k, s.maxColWidth);
    }
    SumAtMost(Widths(s), s.maxColWidth);
  }

  // ----- how many columns fit -----

  /** Screen width reserved before any column: one border, plus a marker column on the right and,
      once scrolled right, one on the left. */
  function Reserved(s: Sheet): int
  {
    1 + (if s.colOffset > 0 then |s.moreColsText| + 3 else 0) + |s.moreColsText| + 3
  }

  /** The entries from position `off` on; none when `off` is past the end. */
  function Suffix(ws: seq<int>, off: nat): (r: seq<int>)
    ensures |r| == if off <= |ws| then |ws| - off else 0
  {
    if off <= |ws| then ws[off..] else []
  }

  /** The widths of the columns from `colOffset` on. */
  function Remaining(s: Sheet): seq<int>
    requires Shaped(s.headers, s.rows)
  {
    Suffix(Widths(s), s.colOffset)
  }

  /** The number of leading widths whose running total stays strictly below budget. */
  function FitCount(ws: seq<int>, budget: int): (n: nat)
    ensures n <= |ws|
    decreases |ws|
  {
    if ws == [] || budget <= ws[0] then 0 else 1 + FitCount(ws[1..], budget - ws[0])
  }

  /** The first n widths stay below the budget; taking one more (if there is one) reaches it. */
  lemma {:induction false} FitCountMeaning(ws: seq<int>, budget: int)
    ensures forall k :: 1 <= k <= FitCount(ws, budget) ==> Sum(ws[..k]) < budget
    ensures FitCount(ws, budget) < |ws| ==> Sum(ws[..FitCount(ws, budget) + 1]) >= budget
    decreases |ws|
  {
    if ws != [] {
      FitCountMeaning(ws[1..], budget - ws[0]);
      forall k | 1 <= k <= |ws|
        ensures Sum(ws[..k]) == ws[0] + Sum(ws[1..][..k - 1])
      {
        SumCons(ws[..k]);
        assert ws[..k][1..] == ws[1..][..k - 1];
      }
    }
  }

  /** Up to the count, the next width decides it: the column at n is counted exactly when adding
      it keeps the running total under the budget. */
  lemma FitCountNext(ws: seq<int>, budget: int, n: nat)
    requires n < |ws| && n <= FitCount(ws, budget)
    ensures n < FitCount(ws, budget) <==> Sum(ws[..n]) + ws[n] < budget
  {
    FitCountMeaning(ws, budget);
    assert ws[..n + 1][..n] == ws[..n];
  }

  /** With positive widths and a negative budget nothing fits. */
  lemma FitCountNegative(ws: seq<int>, budget: int)
    requires budget < 0 && forall k :: 0 <= k < |ws| ==> ws[k] >= 1
    ensures FitCount(ws, budget) == 0
  {
  }

  /** `computeNbColsToShow` leaves its loop: widths positive, and it runs out of screen before it
      runs out of columns (otherwise it reads past the header list and never stops). */
  predicate NbColsDefined(s: Sheet)
    requires Shaped(s.headers, s.rows)
  {
    s.maxColWidth >= 1
    && (s.screenWidth < Reserved(s) || FitCount(Remaining(s), s.screenWidth - Reserved(s)) < |Remaining(s)|)
  }

  /** The result of `computeNbColsToShow`: one less than the number of columns that fit. */
  function NbCols(s: Sheet): int
    requires Shaped(s.headers, s.rows)
  {
    FitCount(Remaining(s), s.screenWidth - Reserved(s)) - 1
  }

  /** A sufficient condition in the widths' own terms: the remaining columns fill the screen. */
  lemma NbColsDefinedWhenFilled(s: Sheet)
    requires Shaped(s.headers, s.rows) && s.maxColWidth >= 1
    requires s.colOffset < |s.headers| && s.screenWidth <= Reserved(s) + Sum(Remaining(s))
    ensures NbColsDefined(s)
  {
    var b := s.screenWidth - Reserved(s);
    FitCountMeaning(Remaining(s), b);
    assert Remaining(s)[..|Remaining(s)|] == Remaining(s);
  }

  /** The shown columns fit strictly inside the screen, and two more would not (when they exist). */
  lemma NbColsChoice(s: Sheet)
    requires Shaped(s.headers, s.rows) && NbColsDefined(s) && s.screenWidth >= Reserved(s)
    ensures 0 <= NbCols(s) + 1 < |Remaining(s)|
    ensures NbCols(s) >= 0 ==> Reserved(s) + Sum(Remaining(s)[..NbCols(s)]) < s.screenWidth
    ensures Reserved(s) + Sum(Remaining(s)[..NbCols(s) + 2]) >= s.screenWidth
  {
    WidthsPositive(s);
    SuffixPositive(Widths(s), s.colOffset);
    FitCountChoice(Remaining(s), s.screenWidth - Reserved(s));
  }

  /** With positive widths and a budget it does not exhaust: the count minus one leaves room,
      the count plus one does not. */
  lemma FitCountChoice(ws: seq<int>, budget: int)
    requires budget >= 0 && FitCount(ws, budget) < |ws|
    requires forall k :: 0 <= k < |ws| ==> ws[k] >= 1
    ensures FitCount(ws, budget) >= 1 ==> Sum(ws[..FitCount(ws, budget) - 1]) < budget
    ensures Sum(ws[..FitCount(ws, budget) + 1]) >= budget
  {
    var fit := FitCount(ws, budget);
    FitCountMeaning(ws, budget);
    if fit >= 2 {
      assert Sum(ws[..fit - 1]) < budget;
    } else if fit == 1 {
      assert ws[..0] == [];
    }
  }

  lemma SuffixPositive(ws: seq<int>, off: nat)
    requires forall k :: 0 <= k < |ws| ==> ws[k] >= 1
    ensures forall k :: 0 <= k < |Suffix(ws, off)| ==> Suffix(ws, off)[k] >= 1
  {
    if off <= |ws| {
      forall k | 0 <= k < |Suffix(ws, off)| ensures Suffix(ws, off)[k] >= 1 {
        assert Suffix(ws, off)[k] == ws[off + k];
      }
    }
  }

  /** Every column is at least one character wide when the cap is. */
  lemma WidthsPositive(s: Sheet)
    requires Shaped(s.headers, s.rows) && s.maxColWidth >= 1
    ensures forall k :: 0 <= k < |Widths(s)| ==> Widths(s)[k] >= 1
  {
    forall k | 0 <= k < |s.headers|
      ensures Widths(s)[k] >= 1
    {
      ColumnWidthIsMax(s.headers[k], s.rows, k, s.maxColWidth);
    }
  }

  // ----- the visible grid -----

  /** `getNbRowsToShow`: the screen height minus the header lines. */
  function NbRowsToShow(screenHeight: int): (n: int)
    ensures n + 4 == screenHeight
  {
    screenHeight - 4
  }

  /** How many rows the narrow view emits: one fewer than the smaller of loaded rows and screen rows. */
  function VisibleRowCount(s: Sheet): nat
  {
    Max(0, Min(|s.rows|, NbRowsToShow(s.screenHeight)) - 1)
  }

  /** How many columns the narrow view emits between its markers. */
  function ShownCount(s: Sheet): nat
    requires Shaped(s.headers, s.rows)
  {
    Max(0, NbCols(s))
  }

  /** PHP `substr(text, 0, length)`: a negative length drops that many characters from the end. */
  function Substr(text: string, length: int): (r: string)
    ensures r <= text
    ensures |r| == if length >= 0 then Min(length, |text|) else Max(0, |text| + length)
  {
    if length >= 0 then text[..Min(length, |text|)]
    else if |text| + length > 0 then text[..|text| + length]
    else ""
  }

  /** A cell longer than the cap keeps its first cap-4 characters followed by " ...". */
  function Truncate(value: string, maxColWidth: int): string
  {
    if |value| > maxColWidth then Substr(value, maxColWidth - 4) + " ..." else value
  }

  lemma TruncateFits(value: string, maxColWidth: int)
    requires maxColWidth >= 4
    ensures |value| > maxColWidth ==>
              |Truncate(value, maxColWidth)| == maxColWidth
              && Truncate(value, maxColWidth) == value[..maxColWidth - 4] + " ..."
    ensures |value| <= maxColWidth ==> Truncate(value, maxColWidth) == value
    ensures |Truncate(value, maxColWidth)| <= maxColWidth
  {
  }

  /** With a cap of at least four, truncating twice is truncating once. */
  lemma TruncateIdempotent(value: string, maxColWidth: int)
    requires maxColWidth >= 4
    ensures Truncate(Truncate(value, maxColWidth), maxColWidth) == Truncate(value, maxColWidth)
  {
    TruncateFits(value, maxColWidth);
  }

  /** Below four the kept prefix has negative length and the result outgrows the cap. */
  lemma TruncateGrowsOnTinyCap()
    ensures Truncate("abc", 2) == "a ..."
    ensures Truncate(Truncate("abc", 2), 2) != Truncate("abc", 2)
  {
    assert Substr("abc", -2) == "a";
    assert Substr("a ...", -2) == "a .";
  }

  /** The cell at row i, column j of the narrow view: looked up by column name; a row past the
      loaded ones reads as PHP null, shown empty. */
  function CellAt(s: Sheet, i: nat, j: nat): string
    requires j < |s.headers|
  {
    if i < |s.rows| then Get(s.rows[i], s.headers[j]) else ""
  }

  /** The marker cell before the columns, present once scrolled right. */
  function Lead(s: Sheet): seq<string>
  {
    if s.colOffset > 0 then [s.moreColsText] else []
  }

  /** The sub-grid is computable: either everything fits, or the column loop terminates. */
  predicate LayoutDefined(s: Sheet)
  {
    Shaped(s.headers, s.rows) && (s.screenWidth >= Total(s) || NbColsDefined(s))
  }

  lemma ShownInRange(s: Sheet)
    requires LayoutDefined(s) && s.screenWidth < Total(s)
    ensures ShownCount(s) > 0 ==> s.colOffset + ShownCount(s) <= |s.headers|
  {
    var ws := Remaining(s);
    var b := s.screenWidth - Reserved(s);
    assert NbColsDefined(s);
    if FitCount(ws, b) > 1 {
      assert ws != [] && b > ws[0];
      assert s.colOffset < |s.headers|;
      WidthsPositive(s);
      assert ws[0] == Widths(s)[s.colOffset];
      assert s.screenWidth >= Reserved(s);
      assert FitCount(ws, b) < |ws|;
      assert ShownCount(s) == FitCount(ws, b) - 1;
    }
  }

  /** The run of headers from `colOffset` that the narrow view shows. */
  function ShownHeaders(s: Sheet): (hs: seq<string>)
    requires LayoutDefined(s) && s.screenWidth < Total(s)
    ensures |hs| == ShownCount(s)
  {
    ShownInRange(s);
    seq(ShownCount(s), j requires 0 <= j < ShownCount(s) => s.headers[s.colOffset + j])
  }

  /** The header line of the narrow view: markers around the shown run of headers. */
  function NarrowHeaders(s: Sheet): seq<string>
    requires LayoutDefined(s) && s.screenWidth < Total(s)
  {
    Lead(s) + ShownHeaders(s) + [s.moreColsText]
  }

  /** The shown cells of loaded row i, truncated. */
  function NarrowCells(s: Sheet, i: nat): (cells: seq<string>)
    requires LayoutDefined(s) && s.screenWidth < Total(s)
    ensures |cells| == ShownCount(s)
  {
    ShownInRange(s);
    seq(ShownCount(s), j requires 0 <= j < ShownCount(s) => Truncate(CellAt(s, i, s.colOffset + j), s.maxColWidth))
  }

  /** Row i of the narrow view, with the same markers as the header line. */
  function NarrowRow(s: Sheet, i: nat): seq<string>
    requires LayoutDefined(s) && s.screenWidth < Total(s)
  {
    Lead(s) + NarrowCells(s, i) + [s.moreColsText]
  }

  /** `computeTable`: the whole table when it fits the screen; otherwise a window of columns
      between markers and of rows from `rowOffset`, every cell truncated. */
  function Table(s: Sheet): (t: Grid)
    requires LayoutDefined(s)
    ensures s.screenWidth >= Total(s) ==> t.headers == s.headers && |t.rows| == |s.rows|
    ensures s.screenWidth < Total(s) ==>
              |t.headers| == |Lead(s)| + ShownCount(s) + 1 && |t.rows| == VisibleRowCount(s)
  {
    if s.screenWidth >= Total(s) then
      Grid(s.headers, seq(|s.rows|, i requires 0 <= i < |s.rows| => Values(s.rows[i])))
    else
      Grid(NarrowHeaders(s), seq(VisibleRowCount(s), i requires 0 <= i < VisibleRowCount(s) => NarrowRow(s, s.rowOffset + i)))
  }

  /** The blank lines `render` writes after the table: up to a screenful of loaded rows. */
  function Padding(s: Sheet): nat
  {
    if |s.rows| < NbRowsToShow(s.screenHeight) then NbRowsToShow(s.screenHeight) - |s.rows| else 0
  }

  /** What `render` writes: the table, then the blank padding lines. */
  datatype Frame = Frame(table: Grid, trailer: seq<string>)

  function FrameOf(s: Sheet): (f: Frame)
    requires LayoutDefined(s)
    ensures f.table == Table(s)
    ensures |f.trailer| == Padding(s) && forall k :: 0 <= k < |f.trailer| ==> f.trailer[k] == ""
  {
    Frame(Table(s), seq(Padding(s), _ => ""))
  }

  // ----- properties of the visible grid -----

  /** When everything fits, the renderer gets headers and rows as loaded: no marker, no truncation,
      every row whatever the offset. */
  lemma WideTableUnchanged(s: Sheet)
    requires LayoutDefined(s) && s.screenWidth >= Total(s)
    ensures Table(s).headers == s.headers
    ensures |Table(s).rows| == |s.rows|
    ensures forall i :: 0 <= i < |s.rows| ==> Table(s).rows[i] == Values(s.rows[i])
  {
  }

  /** When it does not fit, the header line is the run of headers from `colOffset`, closed by a
      marker and, once scrolled right, opened by one. */
  lemma NarrowHeaderLine(s: Sheet)
    requires LayoutDefined(s) && s.screenWidth < Total(s)
    ensures Table(s).headers == Lead(s) + ShownHeaders(s) + [s.moreColsText]
    ensures forall j :: 0 <= j < ShownCount(s) ==>
              s.colOffset + j < |s.headers| && ShownHeaders(s)[j] == s.headers[s.colOffset + j]
  {
    ShownInRange(s);
  }

  /** ... and it has one row fewer than the smaller of the loaded rows and the screen rows, each
      row the one `rowOffset` further down, as wide as the header line. */
  lemma NarrowRowsAligned(s: Sheet)
    requires LayoutDefined(s) && s.screenWidth < Total(s)
    ensures |Table(s).rows| == Max(0, Min(|s.rows|, NbRowsToShow(s.screenHeight)) - 1)
    ensures forall i :: 0 <= i < |Table(s).rows| ==>
              Table(s).rows[i] == NarrowRow(s, s.rowOffset + i) && |Table(s).rows[i]| == |Table(s).headers|
  {
  }

  /** Every narrow row ends with a marker, starts with one once scrolled right, and carries the
      truncated cells of its source row in between. */
  lemma NarrowRowShape(s: Sheet, i: nat)
    requires LayoutDefined(s) && s.screenWidth < Total(s)
    ensures var row := NarrowRow(s, i);
      && row[|row| - 1] == s.moreColsText
      && (s.colOffset > 0 <==> |row| == ShownCount(s) + 2)
      && (s.colOffset > 0 ==> row[0] == s.moreColsText)
      && row[|Lead(s)|..|row| - 1] == NarrowCells(s, i)
  {
    ShownInRange(s);
  }

  /** A loaded row shows its own value in every column: lookup by name finds the positional value. */
  lemma CellIsLoadedValue(s: Sheet, i: nat, j: nat)
    requires Shaped(s.headers, s.rows) && i < |s.rows| && j < |s.headers|
    ensures j < |s.rows[i]| && CellAt(s, i, j) == s.rows[i][j].value
  {
    var r := s.rows[i];
    assert Columns(r) == s.headers;
    assert r[j].column == s.headers[j];
    GetAt(r, j);
  }

  /** A row past the loaded ones shows empty cells. */
  lemma CellPastLoadedIsEmpty(s: Sheet, i: nat, j: nat)
    requires i >= |s.rows| && j < |s.headers|
    ensures CellAt(s, i, j) == ""
  {
  }

  /** In the narrow view with a cap of at least four, no cell is wider than the cap. */
  lemma NarrowCellsCapped(s: Sheet, i: nat)
    requires LayoutDefined(s) && s.screenWidth < Total(s) && s.maxColWidth >= 4
    ensures forall j :: 0 <= j < ShownCount(s) ==> |NarrowCells(s, i)[j]| <= s.maxColWidth
  {
    var cells := NarrowCells(s, i);
    forall j | 0 <= j < |cells|
      ensures |cells[j]| <= s.maxColWidth
    {
      ShownInRange(s);
      var v := CellAt(s, i, s.colOffset + j);
      assert cells[j] == Truncate(v, s.maxColWidth);
      TruncateFits(v, s.maxColWidth);
    }
  }

  /** With a cap below one every column is empty or negative and the whole table is no wider than 0. */
  lemma {:induction false} SumNonPositive(ws: seq<int>)
    requires forall i :: 0 <= i < |ws| ==> ws[i] <= 0
    ensures Sum(ws) <= 0
    decreases |ws|
  {
    if ws != [] {
      SumNonPositive(ws[..|ws| - 1]);
    }
  }

  /** The first screen never overruns: from column 0 the layout is always computable. */
  lemma LayoutDefinedAtOrigin(s: Sheet)
    requires Shaped(s.headers, s.rows) && s.colOffset == 0
    ensures LayoutDefined(s)
  {
    if s.screenWidth < Total(s) {
      var ws := Widths(s);
      if s.maxColWidth < 1 {
        forall k | 0 <= k < |ws| ensures ws[k] <= 0 {
          ColumnWidthIsMax(s.headers[k], s.rows, k, s.maxColWidth);
        }
        SumNonPositive(ws);
        assert false;
      }
      assert Remaining(s) == ws by { assert ws[0..] == ws; }
      var b := s.screenWidth - Reserved(s);
      if s.screenWidth >= Reserved(s) {
        FitCountMeaning(ws, b);
        assert ws[..|ws|] == ws;
        assert FitCount(ws, b) < |ws|;
      }
    }
  }

  /** Padding tops the loaded rows up to a screenful and never overshoots it. */
  lemma PaddingMeaning(s: Sheet)
    ensures |s.rows| < NbRowsToShow(s.screenHeight) ==> |s.rows| + Padding(s) == NbRowsToShow(s.screenHeight)
    ensures |s.rows| >= NbRowsToShow(s.screenHeight) ==> Padding(s) == 0
  {
  }
}
