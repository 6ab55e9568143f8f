/**
 * The canvas table renderer (sqliter/canvas_table.go): the rows and
 * column widths it loads, the scroll position, and the window of rows it
 * draws. Text measurement is a parameter; the drawing calls themselves,
 * the scrollbar and the JavaScript bindings are not modelled.
 */
module Canvas {
  import opened Values
  import opened Text
  import Engine

  /** Go's integer division, which truncates toward zero (divisor positive). */
  function GoDiv(a: int, b: int): (q: int)
    requires b > 0
    ensures a >= 0 ==> q == a / b
    ensures a < 0 ==> q == -((-a) / b)
  {
    if a >= 0 then a / b else -((-a) / b)
  }

  // ---------------------------------------------------------------------
  // Cell text and column widths
  // ---------------------------------------------------------------------

  /** "%v" of a []byte: its byte values in decimal, space separated, in brackets. */
  function ByteList(b: string): string
  {
    "[" + Join(seq(|b|, i requires 0 <= i < |b| => IntToString(b[i] as int)), " ") + "]"
  }

  /** The text shown for a scanned value: "NULL" for nil, otherwise its "%v" rendering. */
  function CellText(c: Cell): string
  {
    match c
    case Null => "NULL"
    case Bytes(b) => ByteList(b)
    case Text(t) => t
    case Typed(shown) => shown
  }

  /** The texts of a scanned row, cell by cell. */
  function RowText(row: seq<Cell>): (r: seq<string>)
    ensures |r| == |row|
    ensures forall i :: 0 <= i < |row| ==> r[i] == CellText(row[i])
  {
    seq(|row|, i requires 0 <= i < |row| => CellText(row[i]))
  }

  /** The rows kept by LoadQueryResults: the text of every row that scanned, in order. */
  function LoadedRows(scans: seq<Option<seq<Cell>>>): seq<seq<string>>
  {
    if scans == [] then []
    else
      var last := scans[|scans| - 1];
      LoadedRows(scans[..|scans| - 1]) + (if last.Some? then [RowText(last.value)] else [])
  }

  /** The kept rows are exactly the rows that scanned, each turned into text; rows that fail to scan are skipped. */
  lemma {:induction false} LoadedRowsSpec(scans: seq<Option<seq<Cell>>>)
    ensures |LoadedRows(scans)| == |Scanned(scans)|
    ensures forall k :: 0 <= k < |Scanned(scans)| ==> LoadedRows(scans)[k] == RowText(Scanned(scans)[k])
  {
    if scans != [] {
      LoadedRowsSpec(scans[..|scans| - 1]);
    }
  }

  /**
   * The width of column j after some rows: the header width, raised to
   * measure(cell) + 20 by every row's cell j that is wider.
   */
  function Widest(header: int, rows: seq<seq<string>>, j: nat, measure: string -> int): int
  {
    if rows == [] then header
    else
      var w := Widest(header, rows[..|rows| - 1], j, measure);
      var last := rows[|rows| - 1];
      if j < |last| && measure(last[j]) + 20 > w then measure(last[j]) + 20 else w
  }

  /** A column is as wide as its header and as every cell in it plus padding, and no wider than the widest of them. */
  lemma {:induction false} WidestSpec(header: int, rows: seq<seq<string>>, j: nat, measure: string -> int)
    ensures Widest(header, rows, j, measure) >= header
    ensures forall k :: 0 <= k < |rows| && j < |rows[k]| ==> Widest(header, rows, j, measure) >= measure(rows[k][j]) + 20
    ensures Widest(header, rows, j, measure) == header
         || exists k :: 0 <= k < |rows| && j < |rows[k]| && Widest(header, rows, j, measure) == measure(rows[k][j]) + 20
  {
    if rows != [] {
      var init := rows[..|rows| - 1];
      WidestSpec(header, init, j, measure);
      assert forall k :: 0 <= k < |init| ==> rows[k] == init[k];
      if Widest(header, rows, j, measure) != header && Widest(header, rows, j, measure) == Widest(header, init, j, measure) {
        var k :| 0 <= k < |init| && j < |init[k]| && Widest(header, init, j, measure) == measure(init[k][j]) + 20;
        assert rows[k] == init[k];
      }
    }
  }

  // ---------------------------------------------------------------------
  // Scroll clamping
  // ---------------------------------------------------------------------

  /** ScrollTo's clamp as written: first up to 0, then down to the maximum, which can be negative. */
  function ClampAsWritten(v: int, hi: int): (r: int)
    ensures r <= hi || r == v
  {
    var low := if v < 0 then 0 else v;
    if low > hi then hi else low
  }

  /**
   * When the content is shorter than the view the clamp as written yields the
   * negative maximum: one 100-pixel column in a 1000-pixel canvas scrolls to
   * 100 - 1000 + 20 = -880.
   */
  lemma ClampAsWrittenNegative(v: int, hi: int)
    requires hi < 0
    ensures ClampAsWritten(v, hi) == hi
  {
  }

  /**
   * One 100-pixel column in a 1000-pixel canvas: scrolling to the left edge
   * leaves scrollX at -880, and the header's first column starts at
   * 10 - scrollX = 890 pixels.
   */
  lemma ScrollXRightAligned()
    ensures var hi := Sum([100]) - 1000 + 20;
      && ClampAsWritten(0, hi) == -880
      && 10 - ClampAsWritten(0, hi) == 890
  {
  }

  /**
   * One row in a 600-pixel canvas: scrolling to the top leaves scrollY at
   * -544, and drawRows' first row index, -544 / 24 truncated, is -22,
   * outside the rows.
   */
  lemma ScrollToAsWrittenCounterexample()
    ensures var hi := MaxScrollY(1, RowHeight, 600, HeaderHeight);
      && hi == -544
      && ClampAsWritten(0, hi) == -544
      && GoDiv(ClampAsWritten(0, hi), RowHeight) == -22
  {
  }

  /** The corrected clamp: down to the maximum, then up to 0. */
  function Clamp(v: int, hi: int): (r: int)
  {
    var high := if v > hi then hi else v;
    if high < 0 then 0 else high
  }

  /**
   * The corrected clamp lies in [0, max(hi, 0)], keeps every position
   * already there, and agrees with the clamp as written whenever the
   * maximum is not negative.
   */
  lemma ClampSpec(v: int, hi: int)
    ensures 0 <= Clamp(v, hi)
    ensures hi >= 0 ==> Clamp(v, hi) <= hi
    ensures hi < 0 ==> Clamp(v, hi) == 0
    ensures 0 <= v <= hi ==> Clamp(v, hi) == v
    ensures hi >= 0 ==> Clamp(v, hi) == ClampAsWritten(v, hi)
  {
  }

  const RowHeight := 24
  const HeaderHeight := 32

  /** The largest vertical scroll: content height minus the canvas height plus the header. */
  function MaxScrollY(rowCount: nat, rowHeight: int, canvasHeight: int, headerHeight: int): int
  {
    rowCount * rowHeight - canvasHeight + headerHeight
  }

  /** The sum of the column widths. */
  function Sum(s: seq<int>): int
  {
    if s == [] then 0 else Sum(s[..|s| - 1]) + s[|s| - 1]
  }

  /** The indices lo, lo + 1, ..., hi - 1 (none when hi <= lo). */
  function Range(lo: int, hi: int): (r: seq<int>)
    ensures |r| == if hi <= lo then 0 else hi - lo
    ensures forall k :: 0 <= k < |r| ==> r[k] == lo + k
  {
    seq(if hi <= lo then 0 else hi - lo, k requires 0 <= k => lo + k)
  }

  // ---------------------------------------------------------------------
  // The renderer
  // ---------------------------------------------------------------------

  class Renderer {
    var rows: seq<seq<string>>
    var columns: seq<string>
    var scrollY: int
    var scrollX: int
    const rowHeight: int
    const headerHeight: int
    var colWidths: array<int>
    var canvasWidth: int
    var canvasHeight: int

    /**
     * Every row has a width per cell and the vertical position is at least 0.
     * The horizontal position is clamped as written and goes negative when
     * the columns are narrower than the view.
     */
    ghost predicate Valid()
      reads this, colWidths
    {
      && rowHeight == RowHeight && headerHeight == HeaderHeight
      && scrollY >= 0
      && forall k :: 0 <= k < |rows| ==> |rows[k]| == colWidths.Length
    }

    /** NewCanvasTableRenderer: no rows or columns, rows 24 and header 32 pixels high, scrolled to the origin. */
    constructor ()
      ensures Valid()
      ensures rows == [] && columns == [] && colWidths.Length == 0
      ensures scrollX == 0 && scrollY == 0 && rowHeight == 24 && headerHeight == 32
      ensures canvasWidth == 0 && canvasHeight == 0
    {
      rows := [];
      columns := [];
      rowHeight := 24;
      headerHeight := 32;
      scrollY := 0;
      scrollX := 0;
      colWidths := new int[0];
      canvasWidth := 0;
      canvasHeight := 0;
    }

    /**
     * LoadQueryResults: on a query or column error nothing is loaded
     * (a column error leaves no column names); otherwise the columns, the
     * text of every row that scanned and, for each column, the widest of
     * its header and cells plus 20 pixels of padding.
     */
    method LoadQueryResults(answer: Result<Engine.Rows>, measure: string -> int) returns (err: Option<string>)
      requires Valid()
      requires answer.Ok? && answer.value.columns.Ok? ==>
        forall k :: 0 <= k < |answer.value.scans| && answer.value.scans[k].Some? ==>
          |answer.value.scans[k].value| == |answer.value.columns.value|
      modifies this
      ensures Valid()
      ensures scrollX == old(scrollX) && scrollY == old(scrollY)
      ensures canvasWidth == old(canvasWidth) && canvasHeight == old(canvasHeight)
      ensures answer.Err? ==> err == Some("query error: " + answer.msg) && rows == old(rows) && columns == old(columns) && colWidths == old(colWidths)
      ensures answer.Ok? && answer.value.columns.Err? ==>
        err == Some("error getting columns: " + answer.value.columns.msg) && columns == [] && rows == old(rows) && colWidths == old(colWidths)
      ensures answer.Ok? && answer.value.columns.Ok? ==>
        var cols := answer.value.columns.value;
        && err == None && fresh(colWidths)
        && columns == cols && rows == LoadedRows(answer.value.scans)
        && colWidths.Length == |cols|
        && forall j :: 0 <= j < |cols| ==> colWidths[j] == Widest(measure(cols[j]) + 20, rows, j, measure)
    {
      if answer.Err? {
        return Some("query error: " + answer.msg);
      }
      if answer.value.columns.Err? {
        columns := [];
        return Some("error getting columns: " + answer.value.columns.msg);
      }
      var cols := answer.value.columns.value;
      var scans := answer.value.scans;
      var widths := HeaderWidths(cols, measure);
      var loaded := LoadRows(widths, cols, scans, measure);
      columns := cols;
      colWidths := widths;
      rows := loaded;
      return None;
    }

    /** The starting column widths: each header's text width plus 20 pixels. */
    static method HeaderWidths(cols: seq<string>, measure: string -> int) returns (widths: array<int>)
      ensures fresh(widths) && widths.Length == |cols|
      ensures forall j :: 0 <= j < |cols| ==> widths[j] == Widest(measure(cols[j]) + 20, [], j, measure)
    {
      widths := new int[|cols|];
      var i := 0;
      while i < |cols|
        invariant 0 <= i <= |cols|
        invariant forall j :: 0 <= j < i ==> widths[j] == measure(cols[j]) + 20
        modifies widths
      {
        widths[i] := measure(cols[i]) + 20;
        i := i + 1;
      }
    }

    /** The row loop of LoadQueryResults: rows that fail to scan are skipped, the others kept as text and measured. */
    static method LoadRows(widths: array<int>, cols: seq<string>, scans: seq<Option<seq<Cell>>>, measure: string -> int)
      returns (loaded: seq<seq<string>>)
      requires widths.Length == |cols|
      requires forall j :: 0 <= j < |cols| ==> widths[j] == Widest(measure(cols[j]) + 20, [], j, measure)
      requires forall k :: 0 <= k < |scans| && scans[k].Some? ==> |scans[k].value| == |cols|
      modifies widths
      ensures loaded == LoadedRows(scans)
      ensures forall m :: 0 <= m < |loaded| ==> |loaded[m]| == |cols|
      ensures forall j :: 0 <= j < |cols| ==> widths[j] == Widest(measure(cols[j]) + 20, loaded, j, measure)
    {
      loaded := [];
      var k := 0;
      while k < |scans|
        invariant 0 <= k <= |scans|
        invariant loaded == LoadedRows(scans[..k])
        invariant forall m :: 0 <= m < |loaded| ==> |loaded[m]| == |cols|
        invariant forall j :: 0 <= j < |cols| ==> widths[j] == Widest(measure(cols[j]) + 20, loaded, j, measure)
      {
        assert scans[..k + 1][..k] == scans[..k];
        if scans[k].Some? {
          var text := AddRow(widths, loaded, scans[k].value, cols, measure);
          loaded := loaded + [text];
        }
        k := k + 1;
      }
      assert scans[..k] == scans;
    }

    /**
     * The inner loop of LoadQueryResults for one scanned row: its cell
     * texts, with each column's width raised to fit its cell.
     */
    static method AddRow(widths: array<int>, loaded: seq<seq<string>>, row: seq<Cell>, cols: seq<string>, measure: string -> int)
      returns (text: seq<string>)
      requires widths.Length == |cols| == |row|
      requires forall j :: 0 <= j < |cols| ==> widths[j] == Widest(measure(cols[j]) + 20, loaded, j, measure)
      modifies widths
      ensures text == RowText(row)
      ensures forall j :: 0 <= j < |cols| ==> widths[j] == Widest(measure(cols[j]) + 20, loaded + [text], j, measure)
    {
      text := [];
      var i := 0;
      while i < |row|
        invariant 0 <= i <= |row|
        invariant |text| == i
        invariant forall j :: 0 <= j < i ==> text[j] == CellText(row[j])
        invariant forall j :: 0 <= j < i ==> widths[j] == Widest(measure(cols[j]) + 20, loaded + [RowText(row)], j, measure)
        invariant forall j :: i <= j < |row| ==> widths[j] == Widest(measure(cols[j]) + 20, loaded, j, measure)
      {
        var s := CellText(row[i]);
        text := text + [s];
        var textWidth := measure(s) + 20;
        assert (loaded + [RowText(row)])[..|loaded|] == loaded;
        if textWidth > widths[i] {
          widths[i] := textWidth;
        }
        i := i + 1;
      }
    }

    /** SetCanvasSize */
    method SetCanvasSize(width: int, height: int)
      requires Valid()
      modifies this
      ensures Valid()
      ensures canvasWidth == width && canvasHeight == height
      ensures rows == old(rows) && columns == old(columns) && colWidths == old(colWidths)
      ensures scrollX == old(scrollX) && scrollY == old(scrollY)
    {
      canvasWidth := width;
      canvasHeight := height;
    }

    /**
     * ScrollTo. The vertical position takes the corrected clamp: it is limited
     * to the rows beyond the view and never goes below 0. The horizontal
     * position keeps the code's order (up to 0, then down to the maximum), so
     * columns narrower than the view leave it negative and the table is drawn
     * right-aligned.
     */
    method ScrollTo(x: int, y: int)
      requires Valid()
      modifies this
      ensures Valid()
      ensures scrollY == Clamp(y, MaxScrollY(|rows|, rowHeight, canvasHeight, headerHeight))
      ensures scrollX == ClampAsWritten(x, Sum(colWidths[..]) - canvasWidth + 20)
      ensures rows == old(rows) && columns == old(columns) && colWidths == old(colWidths)
      ensures canvasWidth == old(canvasWidth) && canvasHeight == old(canvasHeight)
    {
      var maxScrollY := |rows| * rowHeight - canvasHeight + headerHeight;
      var v := y;
      if v > maxScrollY {
        v := maxScrollY;
      }
      if v < 0 {
        v := 0;
      }
      scrollY := v;

      var totalContentWidth := 0;
      var i := 0;
      while i < colWidths.Length
        invariant 0 <= i <= colWidths.Length
        invariant totalContentWidth == Sum(colWidths[..i])
      {
        assert colWidths[..i + 1] == colWidths[..i] + [colWidths[i]];
        totalContentWidth := totalContentWidth + colWidths[i];
        i := i + 1;
      }
      assert colWidths[..i] == colWidths[..];
      var maxScrollX := totalContentWidth - canvasWidth + 20;
      var h := x;
      if h < 0 {
        h := 0;
      }
      if h > maxScrollX {
        h := maxScrollX;
      }
      scrollX := h;
    }

    /** GetRowCount */
    method GetRowCount() returns (n: int)
      ensures n == |rows|
    {
      return |rows|;
    }

    /** The first row drawn: the scroll position in whole rows. */
    function VisibleStart(): int
      reads this
      requires rowHeight > 0
    {
      GoDiv(scrollY, rowHeight)
    }

    /** One past the last row drawn, before the row count: the rows that fit under the header, plus two. */
    function VisibleEnd(): int
      reads this
      requires rowHeight > 0
    {
      VisibleStart() + GoDiv(canvasHeight - headerHeight, rowHeight) + 2
    }

    /**
     * The rows drawRows visits, in order: from the scroll position in
     * whole rows up to the rows that fit plus two, stopping at the last
     * row. Every index drawn is a row of the table.
     */
    method DrawRows() returns (drawn: seq<int>)
      requires Valid()
      ensures drawn == Range(VisibleStart(), if VisibleEnd() < |rows| then VisibleEnd() else |rows|)
      ensures forall k :: 0 <= k < |drawn| ==> 0 <= drawn[k] < |rows|
      ensures |drawn| <= |rows|
    {
      var visibleRowStart := GoDiv(scrollY, rowHeight);
      var rowsInView := GoDiv(canvasHeight - headerHeight, rowHeight);
      var visibleRowEnd := visibleRowStart + rowsInView + 2;
      var hi := if visibleRowEnd < |rows| then visibleRowEnd else |rows|;
      drawn := [];
      var rowIdx := visibleRowStart;
      while rowIdx < visibleRowEnd && rowIdx < |rows|
        invariant visibleRowStart <= rowIdx
        invariant rowIdx == visibleRowStart || rowIdx <= hi
        invariant drawn == Range(visibleRowStart, rowIdx)
        decreases |rows| - rowIdx
      {
        drawn := drawn + [rowIdx];
        rowIdx := rowIdx + 1;
      }
    }
  }
}
