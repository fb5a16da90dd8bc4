/** The static table (components/.../table/Table.kt): column widths and the
    lines `render` prints. The terminal width is a parameter. */
module Tables {
  import opened Wrappers
  import opened Text
  import opened Cells
  import opened Styles

  /** The longest cell text of a column over the rows (`maxOfOrNull`, 0
      when there are no rows). */
  function LongestValue<T>(column: Column<T>, data: seq<T>): (m: nat)
    ensures forall r :: 0 <= r < |data| ==> |column.accessor(data[r])| <= m
    ensures |data| > 0 ==> exists r :: 0 <= r < |data| && |column.accessor(data[r])| == m
    ensures |data| == 0 ==> m == 0
  {
    if data == [] then 0
    else
      var rest := LongestValue(column, data[..|data| - 1]);
      var last := |column.accessor(data[|data| - 1])|;
      if last >= rest then last else rest
  }

  /** The width an auto-sized column starts at: max(3, header, longest value). */
  function AutoWidth<T>(column: Column<T>, data: seq<T>): (w: int)
    ensures w >= MIN_COLUMN_WIDTH && w >= |column.header|
    ensures forall r :: 0 <= r < |data| ==> w >= |column.accessor(data[r])|
  {
    Max(MIN_COLUMN_WIDTH, Max(|column.header|, LongestValue(column, data)))
  }

  /** Sum of the fixed widths (a missing width counts 0). */
  function FixedTotal<T>(columns: seq<Column<T>>): int
  {
    if columns == [] then 0
    else
      var last := columns[|columns| - 1];
      FixedTotal(columns[..|columns| - 1]) + (if last.width.Some? then last.width.value else 0)
  }

  /** Sum of the starting widths of the auto-sized columns. */
  function AutoTotal<T>(columns: seq<Column<T>>, data: seq<T>): (t: int)
    ensures t >= 0
    ensures (exists i :: 0 <= i < |columns| && columns[i].width.None?) ==> t >= MIN_COLUMN_WIDTH
  {
    if columns == [] then 0
    else
      var last := columns[|columns| - 1];
      AutoTotal(columns[..|columns| - 1], data) + (if last.width.None? then AutoWidth(last, data) else 0)
  }

  /** What the table has for its columns: the width it takes as 0 for
      borders, separators and padding. */
  function Available(n: nat, style: TableStyle, terminalWidth: int): int
  {
    var borderOverhead := if style.showBorders then 2 + (n - 1) else n - 1;
    terminalWidth - borderOverhead - n * (style.padding * 2)
  }

  /** The width left for the auto-sized columns. */
  function Remaining<T>(columns: seq<Column<T>>, style: TableStyle, terminalWidth: int): int
  {
    Available(|columns|, style, terminalWidth) - FixedTotal(columns)
  }

  predicate HasAuto<T>(columns: seq<Column<T>>)
  {
    exists i :: 0 <= i < |columns| && columns[i].width.None?
  }

  /** Whether the auto-sized columns are shrunk proportionally. */
  predicate Shrinks<T>(columns: seq<Column<T>>, data: seq<T>, style: TableStyle,
                       terminalWidth: int, truncateOverflow: bool)
  {
    HasAuto(columns) && truncateOverflow &&
    AutoTotal(columns, data) > Remaining(columns, style, terminalWidth)
  }

  /** `(width * remaining / total).toInt()` on exact numbers. */
  function ShrunkWidth(width: int, remaining: int, total: int): (w: int)
    requires total > 0
  {
    Max(MIN_COLUMN_WIDTH, TruncDiv(width * remaining, total))
  }

  lemma ShrinkNeverGrows(width: int, remaining: int, total: int)
    requires total > 0 && MIN_COLUMN_WIDTH <= width && remaining < total
    ensures MIN_COLUMN_WIDTH <= ShrunkWidth(width, remaining, total) <= width
  {
    if remaining >= 0 {
      MulMonotone(0, remaining, width);
      MulMonotone(remaining, total, width);
      QuotientAtMost(width * remaining, total, width);
    } else {
      MulMonotone(remaining, 0, width);
    }
  }

  /** The width `calculateColumnWidths` gives column i. */
  function ColumnWidth<T>(columns: seq<Column<T>>, data: seq<T>, style: TableStyle,
                          terminalWidth: int, truncateOverflow: bool, i: nat): (w: int)
    requires i < |columns|
    ensures w >= MIN_COLUMN_WIDTH
    ensures columns[i].width.Some? ==> w == Max(MIN_COLUMN_WIDTH, columns[i].width.value)
    ensures columns[i].width.None? && !Shrinks(columns, data, style, terminalWidth, truncateOverflow) ==>
      w == AutoWidth(columns[i], data)
    ensures columns[i].width.None? && Shrinks(columns, data, style, terminalWidth, truncateOverflow) ==>
      MIN_COLUMN_WIDTH <= w <= AutoWidth(columns[i], data)
  {
    if columns[i].width.Some? then Max(MIN_COLUMN_WIDTH, columns[i].width.value)
    else if Shrinks(columns, data, style, terminalWidth, truncateOverflow) then
      var auto := AutoWidth(columns[i], data);
      var remaining := Remaining(columns, style, terminalWidth);
      var total := AutoTotal(columns, data);
      ShrinkNeverGrows(auto, remaining, total);
      ShrunkWidth(auto, remaining, total)
    else AutoWidth(columns[i], data)
  }

  /** `calculateColumnWidths`: every width is at least 3, a fixed width is
      raised to 3, an auto-sized width is its starting width unless the
      shrink applies, and the shrink never widens a column. */
  function ColumnWidths<T>(columns: seq<Column<T>>, data: seq<T>, style: TableStyle,
                           terminalWidth: int, truncateOverflow: bool): (widths: seq<int>)
    ensures |widths| == |columns|
    ensures forall i :: 0 <= i < |columns| ==> widths[i] == ColumnWidth(columns, data, style, terminalWidth, truncateOverflow, i)
  {
    seq(|columns|, i requires 0 <= i < |columns| => ColumnWidth(columns, data, style, terminalWidth, truncateOverflow, i))
  }

  /** A data cell: the value ellipsised if its column truncates and it is
      too long, then padded and aligned. */
  function RowCell<T>(column: Column<T>, width: nat, padding: nat, row: T): (cell: string)
    ensures |cell| == width + 2 * padding
  {
    PadCell(Ellipsize(column.accessor(row), width, column.truncate), width, column.align, padding)
  }

  /** One data line's cells. */
  function RowCells<T>(columns: seq<Column<T>>, widths: seq<int>, padding: nat, row: T): (cells: seq<string>)
    requires |widths| == |columns| && forall i :: 0 <= i < |widths| ==> widths[i] >= 0
    ensures |cells| == |columns|
    ensures forall i :: 0 <= i < |columns| ==> cells[i] == RowCell(columns[i], widths[i], padding, row)
  {
    seq(|columns|, i requires 0 <= i < |columns| => RowCell(columns[i], widths[i], padding, row))
  }

  /** The header line's cells: each header centred. */
  function HeaderCells<T>(columns: seq<Column<T>>, widths: seq<int>, padding: nat): (cells: seq<string>)
    requires |widths| == |columns| && forall i :: 0 <= i < |widths| ==> widths[i] >= 0
    ensures |cells| == |columns|
    ensures forall i :: 0 <= i < |columns| ==> cells[i] == PadCell(columns[i].header, widths[i], Center, padding)
  {
    seq(|columns|, i requires 0 <= i < |columns| => PadCell(columns[i].header, widths[i], Center, padding))
  }

  /** In a table the columns are at least 3 wide, so the truncation as
      written never throws and agrees with the intended one. */
  lemma TableTruncationIsSafe<T>(columns: seq<Column<T>>, data: seq<T>, style: TableStyle,
                                 terminalWidth: int, truncateOverflow: bool, i: nat, value: string)
    requires i < |columns|
    ensures var w := ColumnWidths(columns, data, style, terminalWidth, truncateOverflow)[i];
            EllipsizeAsWritten(value, w, columns[i].truncate) == Success(Ellipsize(value, w, columns[i].truncate))
  {
  }

  /** The width a column has before the shrink: its fixed width (kept as
      given) or its starting auto width. */
  function StartWidth<T>(column: Column<T>, data: seq<T>): int
  {
    if column.width.Some? then column.width.value else AutoWidth(column, data)
  }

  /** The table. Its rows, columns and options are fixed at construction. */
  datatype Table<!T> = Table(
    data: seq<T>,
    columns: seq<Column<T>>,
    style: TableStyle,
    fixedWidth: Option<int>,
    truncateOverflow: bool)
  {
    /** The width the table lays out for: the fixed width, else the terminal's. */
    function LayoutWidth(terminalWidth: int): (w: int)
      ensures fixedWidth.Some? ==> w == fixedWidth.value
      ensures fixedWidth.None? ==> w == terminalWidth
    {
      if fixedWidth.Some? then fixedWidth.value else terminalWidth
    }

    function Widths(terminalWidth: int): (widths: seq<int>)
      ensures |widths| == |columns|
      ensures forall i :: 0 <= i < |widths| ==> widths[i] >= MIN_COLUMN_WIDTH
    {
      ColumnWidths(columns, data, style, LayoutWidth(terminalWidth), truncateOverflow)
    }

    /** The top border (when borders are shown), the header line and the
        header separator (when enabled). */
    function HeadLines(widths: seq<int>): (lines: seq<string>)
      requires |widths| == |columns| && forall i :: 0 <= i < |widths| ==> widths[i] >= 0
      ensures |lines| == 1 + (if style.showBorders then 1 else 0) + (if style.showHeaderSeparator then 1 else 0)
    {
      var b := style.borderChars;
      var p := style.padding;
      (if style.showBorders then [BorderLine(b.topLeft, b.horizontal, b.topCross, b.topRight, widths, p)] else []) +
      [RowLine(style.showBorders, b.vertical, HeaderCells(columns, widths, p))] +
      (if style.showHeaderSeparator then
         [BorderLine(if style.showBorders then b.headerLeft else [], b.horizontal, b.headerCross,
                     if style.showBorders then b.headerRight else [], widths, p)]
       else [])
    }

    function DataLine(widths: seq<int>, row: T): string
      requires |widths| == |columns| && forall i :: 0 <= i < |widths| ==> widths[i] >= 0
    {
      RowLine(style.showBorders, style.borderChars.vertical, RowCells(columns, widths, style.padding, row))
    }

    /** The bottom border, when borders are shown. */
    function TailLines(widths: seq<int>): (lines: seq<string>)
      ensures |lines| == if style.showBorders then 1 else 0
    {
      var b := style.borderChars;
      if style.showBorders then [BorderLine(b.bottomLeft, b.horizontal, b.bottomCross, b.bottomRight, widths, style.padding)] else []
    }

    /** The lines `render` prints, in order: one per data row, plus the
        header, plus the borders and the separator only when enabled. */
    function Lines(terminalWidth: int): (lines: seq<string>)
      ensures |lines| == |data| + 1 + (if style.showBorders then 2 else 0) + (if style.showHeaderSeparator then 1 else 0)
    {
      var w := Widths(terminalWidth);
      HeadLines(w) + BodyLines(w, data) + TailLines(w)
    }

    /** One line per row, in order. */
    function BodyLines(widths: seq<int>, rows: seq<T>): (lines: seq<string>)
      requires |widths| == |columns| && forall i :: 0 <= i < |widths| ==> widths[i] >= 0
      ensures |lines| == |rows|
      ensures forall r :: 0 <= r < |rows| ==> lines[r] == DataLine(widths, rows[r])
    {
      if rows == [] then [] else BodyLines(widths, rows[..|rows| - 1]) + [DataLine(widths, rows[|rows| - 1])]
    }

    method BuildHead(widths: seq<int>) returns (lines: seq<string>)
      requires |widths| == |columns| && forall i :: 0 <= i < |widths| ==> widths[i] >= 0
      ensures lines == HeadLines(widths)
    {
      var b := style.borderChars;
      var p := style.padding;
      lines := [];
      if style.showBorders {
        var top := BuildBorder(b.topLeft, b.horizontal, b.topCross, b.topRight, widths, p);
        lines := lines + [top];
      }
      var header := BuildRow(style.showBorders, b.vertical, HeaderCells(columns, widths, p));
      lines := lines + [header];
      if style.showHeaderSeparator {
        var separator := BuildBorder(if style.showBorders then b.headerLeft else [], b.horizontal, b.headerCross,
                                     if style.showBorders then b.headerRight else [], widths, p);
        lines := lines + [separator];
      }
    }

    /** The `data.forEach { renderRow }` loop. */
    method BuildBody(widths: seq<int>) returns (lines: seq<string>)
      requires |widths| == |columns| && forall i :: 0 <= i < |widths| ==> widths[i] >= 0
      ensures lines == BodyLines(widths, data)
    {
      lines := [];
      var r := 0;
      while r < |data|
        invariant 0 <= r <= |data|
        invariant lines == BodyLines(widths, data[..r])
      {
        assert data[..r + 1][..r] == data[..r];
        var line := BuildRow(style.showBorders, style.borderChars.vertical, RowCells(columns, widths, style.padding, data[r]));
        lines := lines + [line];
        r := r + 1;
      }
      assert data[..|data|] == data;
    }

    /** `render`: the head lines, one line per data row, the bottom border. */
    method Render(terminalWidth: int) returns (lines: seq<string>)
      ensures lines == Lines(terminalWidth)
    {
      var widths := ComputeColumnWidths(LayoutWidth(terminalWidth));
      assert widths == Widths(terminalWidth);
      var head := BuildHead(widths);
      var body := BuildBody(widths);
      lines := head + body;
      if style.showBorders {
        var b := style.borderChars;
        var bottom := BuildBorder(b.bottomLeft, b.horizontal, b.bottomCross, b.bottomRight, widths, style.padding);
        lines := lines + [bottom];
      }
    }

    /** `widths.sum()` of the fixed-width pass. */
    method SumFixed() returns (fixedTotal: int)
      ensures fixedTotal == FixedTotal(columns)
    {
      fixedTotal := 0;
      var i := 0;
      while i < |columns|
        invariant 0 <= i <= |columns| && fixedTotal == FixedTotal(columns[..i])
      {
        assert columns[..i + 1][..i] == columns[..i];
        fixedTotal := fixedTotal + (if columns[i].width.Some? then columns[i].width.value else 0);
        i := i + 1;
      }
      assert columns[..|columns|] == columns;
    }

    /** The `forEachIndexed` pass giving each auto-sized column its
        starting width. */
    method StartWidths() returns (widths: seq<int>)
      ensures |widths| == |columns|
      ensures forall k :: 0 <= k < |columns| ==> widths[k] == StartWidth(columns[k], data)
    {
      var n := |columns|;
      widths := seq(n, k requires 0 <= k < n => if columns[k].width.Some? then columns[k].width.value else 0);
      var i := 0;
      while i < n
        invariant 0 <= i <= n && |widths| == n
        invariant forall k :: 0 <= k < n && columns[k].width.Some? ==> widths[k] == columns[k].width.value
        invariant forall k :: 0 <= k < i && columns[k].width.None? ==> widths[k] == AutoWidth(columns[k], data)
      {
        if columns[i].width.None? {
          var contentWidth := LongestValueLoop(columns[i]);
          widths := widths[i := Max(MIN_COLUMN_WIDTH, Max(|columns[i].header|, contentWidth))];
        }
        i := i + 1;
      }
    }

    /** Whether any column is auto-sized, and `sumOf` their widths. */
    method SumAuto(widths: seq<int>) returns (anyAuto: bool, totalAutoWidth: int)
      requires |widths| == |columns|
      requires forall k :: 0 <= k < |columns| ==> widths[k] == StartWidth(columns[k], data)
      ensures anyAuto == HasAuto(columns) && totalAutoWidth == AutoTotal(columns, data)
    {
      anyAuto := false;
      totalAutoWidth := 0;
      var i := 0;
      while i < |columns|
        invariant 0 <= i <= |columns|
        invariant totalAutoWidth == AutoTotal(columns[..i], data)
        invariant anyAuto <==> HasAuto(columns[..i])
      {
        assert columns[..i + 1][..i] == columns[..i];
        assert columns[i] == columns[..i + 1][i];
        if columns[i].width.None? {
          anyAuto := true;
          totalAutoWidth := totalAutoWidth + widths[i];
        }
        i := i + 1;
      }
      assert columns[..|columns|] == columns;
    }

    /** The proportional shrink of the auto-sized columns. */
    method ShrinkAuto(widths: seq<int>, remainingWidth: int, totalAutoWidth: int) returns (shrunk: seq<int>)
      requires totalAutoWidth > 0 && |widths| == |columns|
      ensures |shrunk| == |columns|
      ensures forall k :: 0 <= k < |columns| ==>
        shrunk[k] == if columns[k].width.Some? then widths[k] else ShrunkWidth(widths[k], remainingWidth, totalAutoWidth)
    {
      shrunk := widths;
      var i := 0;
      while i < |columns|
        invariant 0 <= i <= |columns| && |shrunk| == |columns|
        invariant forall k :: 0 <= k < i ==>
          shrunk[k] == if columns[k].width.Some? then widths[k] else ShrunkWidth(widths[k], remainingWidth, totalAutoWidth)
        invariant forall k :: i <= k < |columns| ==> shrunk[k] == widths[k]
      {
        if columns[i].width.None? {
          shrunk := shrunk[i := ShrunkWidth(shrunk[i], remainingWidth, totalAutoWidth)];
        }
        i := i + 1;
      }
    }

    /** `calculateColumnWidths` as the source runs it: fixed widths, then
        the starting auto widths, then the shrink, then the floor of 3. */
    method ComputeColumnWidths(terminalWidth: int) returns (widths: seq<int>)
      ensures widths == ColumnWidths(columns, data, style, terminalWidth, truncateOverflow)
    {
      var n := |columns|;
      var fixedTotal := SumFixed();
      var remainingWidth := Available(n, style, terminalWidth) - fixedTotal;
      widths := StartWidths();
      var anyAuto, totalAutoWidth := SumAuto(widths);
      var shrink := anyAuto && truncateOverflow && totalAutoWidth > remainingWidth;
      assert shrink == Shrinks(columns, data, style, terminalWidth, truncateOverflow);
      if shrink {
        widths := ShrinkAuto(widths, remainingWidth, totalAutoWidth);
      }
      widths := seq(n, k requires 0 <= k < n => Max(MIN_COLUMN_WIDTH, widths[k]));
      forall k | 0 <= k < n
        ensures widths[k] == ColumnWidth(columns, data, style, terminalWidth, truncateOverflow, k)
      {
        if columns[k].width.None? && shrink {
          ShrinkNeverGrows(AutoWidth(columns[k], data), remainingWidth, totalAutoWidth);
        }
      }
    }

    /** `data.maxOfOrNull { value length } ?: 0`. */
    method LongestValueLoop(column: Column<T>) returns (m: nat)
      ensures m == LongestValue(column, data)
    {
      m := 0;
      var r := 0;
      while r < |data|
        invariant 0 <= r <= |data| && m == LongestValue(column, data[..r])
      {
        assert data[..r + 1][..r] == data[..r];
        var len := |column.accessor(data[r])|;
        if len >= m {
          m := len;
        }
        r := r + 1;
      }
      assert data[..|data|] == data;
    }
  }
}
