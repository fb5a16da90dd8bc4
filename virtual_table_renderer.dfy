/** The frame of the interactive table (components/.../table/
    VirtualTableRenderer.kt): the lines of one screen, built from the
    navigation state. The terminal width is a parameter; writing the frame
    to the terminal is not modelled. */
module VirtualTableRendering {
  import opened Wrappers
  import opened Text
  import opened Cells
  import opened Styles
  import opened TableState
  import Tables

  /** Width of an auto-sized column at least. */
  const MIN_AUTO_WIDTH: int := 10
  /** Columns the layout keeps free. */
  const RESERVED_WIDTH: int := 10
  const KEY_HINTS: string := "↑↓:Navigate  q:Quit"
  const PART_SEPARATOR: string := " | "

  /** What the columns share: the terminal width less the bars, the padding
      and the reserve. */
  function Available(n: nat, style: VirtualTableStyle, terminalWidth: int): int
  {
    var base := style.baseStyle;
    var borderOverhead := if base.showBorders then |base.borderChars.vertical| * (n + 1) else n - 1;
    terminalWidth - borderOverhead - n * (base.padding * 2) - RESERVED_WIDTH
  }

  /** `calculateColumnWidths`: a fixed width is kept as given; every other
      column gets an equal share of the available width, at least 10. */
  function ColumnWidths<T>(columns: seq<Column<T>>, style: VirtualTableStyle, terminalWidth: int): (widths: seq<int>)
    ensures |widths| == |columns|
    ensures forall i :: 0 <= i < |columns| && columns[i].width.Some? ==> widths[i] == columns[i].width.value
    ensures forall i :: 0 <= i < |columns| && columns[i].width.None? ==>
      widths[i] >= MIN_AUTO_WIDTH && widths[i] == Max(MIN_AUTO_WIDTH, TruncDiv(Available(|columns|, style, terminalWidth), |columns|))
    ensures forall i :: 0 <= i < |columns| && columns[i].width.None? && Available(|columns|, style, terminalWidth) >= MIN_AUTO_WIDTH * |columns| ==>
      widths[i] * |columns| <= Available(|columns|, style, terminalWidth)
  {
    var n := |columns|;
    var available := Available(n, style, terminalWidth);
    var widths := seq(n, i requires 0 <= i < n =>
      if columns[i].width.Some? then columns[i].width.value else Max(MIN_AUTO_WIDTH, TruncDiv(available, n)));
    if n > 0 && available >= MIN_AUTO_WIDTH * n then AutoShareFits(available, n); widths else widths
  }

  /** With room for the minimum in every column, the equal share is at least
      the minimum and the shares together fit the available width. */
  lemma AutoShareFits(available: int, n: nat)
    requires n > 0 && available >= MIN_AUTO_WIDTH * n
    ensures Max(MIN_AUTO_WIDTH, TruncDiv(available, n)) == available / n
    ensures (available / n) * n <= available
  {
    QuotientAtLeast(available, n, MIN_AUTO_WIDTH);
  }

  /** Which style a data cell gets: highlighting wins over selection. */
  function CellStyle(style: VirtualTableStyle, highlighted: bool, selected: bool, text: string): (r: string)
    ensures highlighted ==> r == style.highlightStyle.Apply(text)
    ensures !highlighted && selected ==> r == style.selectionStyle.Apply(text)
    ensures !highlighted && !selected ==> r == text
  {
    if highlighted then style.highlightStyle.Apply(text)
    else if selected then style.selectionStyle.Apply(text)
    else text
  }

  /** The parts of the status line, in order: the position, the selection
      count (only when something is selected), the key hints (only when
      enabled). */
  function FooterParts(total: int, current: int, selectedCount: nat, showKeyHints: bool): (parts: seq<string>)
    ensures |parts| == 1 + (if selectedCount > 0 then 1 else 0) + (if showKeyHints then 1 else 0)
    ensures parts[0] == if total > 0 then "Row " + IntToString(current + 1) + " of " + IntToString(total) else "No data"
    ensures selectedCount > 0 ==> parts[1] == IntToString(selectedCount) + " selected"
    ensures showKeyHints ==> parts[|parts| - 1] == KEY_HINTS
  {
    [if total > 0 then "Row " + IntToString(current + 1) + " of " + IntToString(total) else "No data"] +
    (if selectedCount > 0 then [IntToString(selectedCount) + " selected"] else []) +
    (if showKeyHints then [KEY_HINTS] else [])
  }

  /** `renderFooter`: the parts joined by `" | "`, one space each side, in
      the footer style (its codes before, the reset after, unless the style
      sets nothing). */
  function Footer(style: VirtualTableStyle, total: int, current: int, selectedCount: nat): (r: string)
    ensures var text := " " + JoinWith(FooterParts(total, current, selectedCount, style.showKeyHints), PART_SEPARATOR) + " ";
      (style.footerStyle.Plain() ==> r == text) &&
      (!style.footerStyle.Plain() ==> r == style.footerStyle.Prefix() + text + RESET)
  {
    style.footerStyle.Apply(" " + JoinWith(FooterParts(total, current, selectedCount, style.showKeyHints), PART_SEPARATOR) + " ")
  }

  /** The decimal forms of 10 and 100. */
  lemma TensInDecimal()
    ensures IntToString(10) == "10" && IntToString(100) == "100"
  {
    assert NatToString(1) == "1";
    assert NatToString(10) == "10";
  }

  /** The status line of a 100-row table on row 10 with nothing selected. */
  lemma FooterExample()
    ensures JoinWith(FooterParts(100, 9, 0, true), PART_SEPARATOR) == "Row 10 of 100 | ↑↓:Navigate  q:Quit"
  {
    TensInDecimal();
    var first := "Row " + IntToString(9 + 1) + " of " + IntToString(100);
    assert first == "Row 10 of 100";
    var parts := FooterParts(100, 9, 0, true);
    assert parts == [first, KEY_HINTS];
    assert parts[..1] == [first];
  }

  /** Lines terminated by a newline each, concatenated. */
  function Terminated(lines: seq<string>): (s: string)
  {
    if lines == [] then [] else Terminated(lines[..|lines| - 1]) + lines[|lines| - 1] + "\n"
  }

  /** The renderer: columns, style and the widths fixed at construction. */
  datatype VirtualTableRenderer<!T> = VirtualTableRenderer(
    columns: seq<Column<T>>,
    style: VirtualTableStyle,
    columnWidths: seq<int>)
  {
    /** The widths are as many as the columns, and none is negative (a
        negative fixed width makes `take` and `repeat` throw). */
    predicate Valid()
    {
      |columnWidths| == |columns| && forall i :: 0 <= i < |columnWidths| ==> columnWidths[i] >= 0
    }

    function TopBorder(): string
    {
      var b := style.baseStyle.borderChars;
      BorderLine(b.topLeft, b.horizontal, b.topCross, b.topRight, columnWidths, style.baseStyle.padding)
    }

    function HeaderSeparator(): string
    {
      var b := style.baseStyle.borderChars;
      var shown := style.baseStyle.showBorders;
      BorderLine(if shown then b.headerLeft else [], b.horizontal, b.headerCross,
                 if shown then b.headerRight else [], columnWidths, style.baseStyle.padding)
    }

    function BottomBorder(): string
    {
      var b := style.baseStyle.borderChars;
      BorderLine(b.bottomLeft, b.horizontal, b.bottomCross, b.bottomRight, columnWidths, style.baseStyle.padding)
    }

    /** `renderHeader`: the plain table's header cells (each header centred),
        each in the header style. */
    function HeaderCells(): (cells: seq<string>)
      requires Valid()
      ensures |cells| == |columns|
      ensures forall i :: 0 <= i < |columns| ==>
        cells[i] == style.headerStyle.Apply(Tables.HeaderCells(columns, columnWidths, style.baseStyle.padding)[i])
    {
      seq(|columns|, i requires 0 <= i < |columns| =>
        style.headerStyle.Apply(PadCell(columns[i].header, columnWidths[i], Center, style.baseStyle.padding)))
    }

    /** A `renderRow` cell: the plain table's cell for the value (ellipsised
        when the column truncates, padded to the column's width and
        aligned), then in the highlight style on the cursor's row, else in
        the selection style on a selected row. */
    function RowCell(i: nat, row: T, highlighted: bool, selected: bool): (cell: string)
      requires Valid() && i < |columns|
      ensures var plain := Tables.RowCell(columns[i], columnWidths[i], style.baseStyle.padding, row);
        |plain| == columnWidths[i] + 2 * style.baseStyle.padding &&
        (highlighted ==> cell == style.highlightStyle.Apply(plain)) &&
        (!highlighted && selected ==> cell == style.selectionStyle.Apply(plain)) &&
        (!highlighted && !selected ==> cell == plain)
    {
      CellStyle(style, highlighted, selected,
        PadCell(Ellipsize(columns[i].accessor(row), columnWidths[i], columns[i].truncate),
                columnWidths[i], columns[i].align, style.baseStyle.padding))
    }

    function RowCells(row: T, highlighted: bool, selected: bool): (cells: seq<string>)
      requires Valid()
      ensures |cells| == |columns|
      ensures forall i :: 0 <= i < |columns| ==> cells[i] == RowCell(i, row, highlighted, selected)
      ensures !highlighted && !selected ==>
        forall i :: 0 <= i < |columns| ==> |cells[i]| == columnWidths[i] + 2 * style.baseStyle.padding
    {
      seq(|columns|, i requires 0 <= i < |columns| => RowCell(i, row, highlighted, selected))
    }

    /** `renderEmptyRow`'s cells: blank fields as wide as the columns. */
    function EmptyCells(): (cells: seq<string>)
      requires Valid()
      ensures |cells| == |columns|
      ensures forall i :: 0 <= i < |columns| ==>
        |cells[i]| == columnWidths[i] + 2 * style.baseStyle.padding &&
        forall k :: 0 <= k < |cells[i]| ==> cells[i][k] == ' '
    {
      seq(|columns|, i requires 0 <= i < |columns| => PadCell("", columnWidths[i], Left, style.baseStyle.padding))
    }

    function Line(cells: seq<string>): string
    {
      RowLine(style.baseStyle.showBorders, style.baseStyle.borderChars.vertical, cells)
    }

    /** A `renderRow` line. */
    function DataLine(row: T, highlighted: bool, selected: bool): string
      requires Valid()
    {
      Line(RowCells(row, highlighted, selected))
    }

    /** The data lines of the visible rows; row k of the window is row
        `offset + k` of the table. */
    function RowLines(nav: Cursor, selected: set<int>, visible: seq<T>): (lines: seq<string>)
      requires Valid()
      ensures |lines| == |visible|
      ensures forall k :: 0 <= k < |visible| ==>
        lines[k] == DataLine(visible[k], nav.offset + k == nav.current, nav.offset + k in selected)
    {
      seq(|visible|, k requires 0 <= k < |visible| =>
        DataLine(visible[k], nav.offset + k == nav.current, nav.offset + k in selected))
    }

    /** `buildFrame`: top border, header, separator, the visible rows, blank
        rows up to the window height, bottom border, and the footer when
        shown. The borders and the separator are emitted whatever the
        style's flags say (an empty style gives empty lines). */
    function FrameLines(nav: Cursor, selected: set<int>, selectedCount: nat, visible: seq<T>): (lines: seq<string>)
      requires Valid()
    {
      [TopBorder(), Line(HeaderCells()), HeaderSeparator()] +
      RowLines(nav, selected, visible) +
      seq(Max(0, nav.height - |visible|), _ => Line(EmptyCells())) +
      [BottomBorder()] +
      (if style.showFooter then [Footer(style, nav.total, nav.current, selectedCount)] else [])
    }

    /** The frame as a string: the state's visible rows, cursor and
        selection, laid out by `FrameLines`. */
    method BuildFrame(state: TableState.VirtualTableState<T>) returns (frame: string)
      requires Valid()
      requires TableState.Valid(state.Nav()) && state.visibleHeight >= 0
      ensures state.GetVisibleRows().Success?
      ensures frame == Terminated(FrameLines(state.Nav(), state.selectedIndices,
                                             |state.GetSelectedRows()|, state.GetVisibleRows().value))
    {
      var nav := state.Nav();
      var visible := state.GetVisibleRows().value;
      var lines := BuildFrameLines(nav, state.selectedIndices, |state.GetSelectedRows()|, visible);
      frame := AppendLines(lines);
    }

    /** The lines of `buildFrame`, in the order it appends them. */
    method BuildFrameLines(nav: Cursor, selected: set<int>, selectedCount: nat, visible: seq<T>) returns (lines: seq<string>)
      requires Valid()
      ensures lines == FrameLines(nav, selected, selectedCount, visible)
    {
      var b := style.baseStyle.borderChars;
      var p := style.baseStyle.padding;
      var shown := style.baseStyle.showBorders;
      var top := BuildBorder(b.topLeft, b.horizontal, b.topCross, b.topRight, columnWidths, p);
      var header := BuildRow(shown, b.vertical, HeaderCells());
      var separator := BuildBorder(if shown then b.headerLeft else [], b.horizontal, b.headerCross,
                                   if shown then b.headerRight else [], columnWidths, p);
      var rows := BuildRows(nav, selected, visible);
      var blanks := BuildBlankRows(nav.height - |visible|);
      var bottom := BuildBorder(b.bottomLeft, b.horizontal, b.bottomCross, b.bottomRight, columnWidths, p);
      lines := [top, header, separator] + rows + blanks + [bottom];
      if style.showFooter {
        lines := lines + [Footer(style, nav.total, nav.current, selectedCount)];
      }
    }

    /** The `visibleRows.forEachIndexed` loop: row `index` of the window is
        row `offset + index` of the table. */
    method BuildRows(nav: Cursor, selected: set<int>, visible: seq<T>) returns (lines: seq<string>)
      requires Valid()
      ensures lines == RowLines(nav, selected, visible)
    {
      lines := [];
      var index := 0;
      while index < |visible|
        invariant 0 <= index <= |visible|
        invariant |lines| == index
        invariant forall k :: 0 <= k < index ==>
          lines[k] == DataLine(visible[k], nav.offset + k == nav.current, nav.offset + k in selected)
      {
        var globalIndex := nav.offset + index;
        var line := BuildRow(style.baseStyle.showBorders, style.baseStyle.borderChars.vertical,
                             RowCells(visible[index], globalIndex == nav.current, globalIndex in selected));
        lines := lines + [line];
        index := index + 1;
      }
    }

    /** The `repeat(emptyRows)` loop; nothing for a count of 0 or less. */
    method BuildBlankRows(count: int) returns (lines: seq<string>)
      requires Valid()
      ensures lines == seq(Max(0, count), _ => Line(EmptyCells()))
    {
      var blank := BuildRow(style.baseStyle.showBorders, style.baseStyle.borderChars.vertical, EmptyCells());
      lines := [];
      var i := 0;
      while i < count
        invariant 0 <= i <= Max(0, count)
        invariant lines == seq(i, _ => blank)
      {
        lines := lines + [blank];
        i := i + 1;
      }
    }
  }

  /** `append(line); append("\n")` for each line. */
  method AppendLines(lines: seq<string>) returns (text: string)
    ensures text == Terminated(lines)
  {
    text := [];
    var i := 0;
    while i < |lines|
      invariant 0 <= i <= |lines| && text == Terminated(lines[..i])
    {
      assert lines[..i + 1][..i] == lines[..i];
      text := text + lines[i] + "\n";
      i := i + 1;
    }
    assert lines[..|lines|] == lines;
  }

  /** `VirtualTableRenderer(columns, style, output)`: the widths are computed
      once, from the terminal width at that moment. */
  function NewRenderer<T>(columns: seq<Column<T>>, style: VirtualTableStyle, terminalWidth: int): (r: VirtualTableRenderer<T>)
    ensures r.columns == columns && r.style == style
    ensures (forall i :: 0 <= i < |columns| && columns[i].width.Some? ==> columns[i].width.value >= 0) ==> r.Valid()
  {
    VirtualTableRenderer(columns, style, ColumnWidths(columns, style, terminalWidth))
  }

  /** The frame body is exactly as tall as the window: the visible rows plus
      `visibleHeight - visibleRows.size` blank rows, so a frame has the
      window height plus four lines (plus the footer). */
  lemma FrameHeight<T>(r: VirtualTableRenderer<T>, nav: Cursor, selected: set<int>, selectedCount: nat, visible: seq<T>)
    requires r.Valid() && |visible| <= nav.height
    ensures |r.FrameLines(nav, selected, selectedCount, visible)| == 4 + nav.height + (if r.style.showFooter then 1 else 0)
  {
    var rows := r.RowLines(nav, selected, visible);
    var blanks := seq(Max(0, nav.height - |visible|), _ => r.Line(r.EmptyCells()));
    assert |rows| == |visible|;
    assert |blanks| == nav.height - |visible|;
    var tail := if r.style.showFooter then [Footer(r.style, nav.total, nav.current, selectedCount)] else [];
    assert r.FrameLines(nav, selected, selectedCount, visible) ==
      [r.TopBorder(), r.Line(r.HeaderCells()), r.HeaderSeparator()] + rows + blanks + [r.BottomBorder()] + tail;
  }

  /** The highlighted row is drawn in the highlight style even when it is
      also selected. */
  lemma HighlightWins<T>(r: VirtualTableRenderer<T>, nav: Cursor, selected: set<int>, visible: seq<T>, k: nat)
    requires r.Valid() && k < |visible| && nav.offset + k == nav.current
    ensures r.RowLines(nav, selected, visible)[k] == r.DataLine(visible[k], true, false)
  {
    var a := r.RowCells(visible[k], true, nav.offset + k in selected);
    var b := r.RowCells(visible[k], true, false);
    forall i | 0 <= i < |a|
      ensures a[i] == b[i]
    {
    }
    assert a == b;
  }

}
