/** Navigation and selection state of the virtual table
    (components/.../table/VirtualTableState.kt). The cursor and scroll
    arithmetic is specified on the value `Cursor`; the class
    `VirtualTableState` holds the same fields and updates them in place. */
module TableState {
  import opened Wrappers
  import opened Text
  import opened DataSources

  /** Row count, window height, highlighted row and first visible row. */
  datatype Cursor = Cursor(total: int, height: int, current: int, offset: int)

  /** Largest scroll offset `ensureVisible` allows. */
  function MaxOffset(c: Cursor): (m: nat)
    ensures m == Max(0, c.total - c.height)
  {
    Max(0, c.total - c.height)
  }

  /** The state every operation keeps: the offset lies in its bounds; with
      rows, the highlighted row is a row, and with a positive height it is
      inside the window. With no rows the cursor is 0, or -1 after a page
      down (`min(totalRows - 1, ...)`). */
  predicate Valid(c: Cursor)
  {
    c.total >= 0 && 0 <= c.offset <= MaxOffset(c) &&
    (c.total <= 0 ==> -1 <= c.current <= 0) &&
    (c.total > 0 ==> 0 <= c.current < c.total) &&
    (c.total > 0 && c.height > 0 ==> c.offset <= c.current < c.offset + c.height)
  }

  /** The row `current` lies in the window starting at `offset`. */
  predicate InWindow(c: Cursor)
  {
    c.offset <= c.current < c.offset + c.height
  }

  /** `ensureVisible`: scroll up to the row if it is above the window, scroll
      down so it is the last row of the window if it is below, then clamp the
      offset into `0..max(0, totalRows - visibleHeight)`. */
  function EnsureVisible(c: Cursor): (r: Cursor)
    ensures r.total == c.total && r.height == c.height && r.current == c.current
    ensures 0 <= r.offset <= MaxOffset(c)
    ensures c.height > 0 && 0 <= c.current < c.total ==> InWindow(r)
    ensures InWindow(c) && 0 <= c.offset <= MaxOffset(c) ==> r.offset == c.offset
    ensures c.height > 0 && c.current < c.offset ==> r.offset == Clamp(c.current, 0, MaxOffset(c))
    ensures c.current >= c.offset + c.height ==> r.offset == Clamp(c.current - c.height + 1, 0, MaxOffset(c))
    ensures InWindow(c) ==> r.offset == Clamp(c.offset, 0, MaxOffset(c))
  {
    var o1 := if c.current < c.offset then c.current else c.offset;
    var o2 := if c.current >= o1 + c.height then c.current - c.height + 1 else o1;
    c.(offset := Clamp(o2, 0, MaxOffset(c)))
  }

  /** Moving below a window of 10 scrolls it by one row; moving above it
      scrolls it up to the row. */
  lemma EnsureVisibleExamples()
    ensures EnsureVisible(Cursor(100, 10, 10, 0)).offset == 1
    ensures EnsureVisible(Cursor(100, 10, 4, 5)).offset == 4
    ensures EnsureVisible(Cursor(100, 10, 99, 0)).offset == 90
  {
  }

  /** The state of a freshly built table. */
  function Initial(total: int, height: int): (c: Cursor)
    ensures total >= 0 ==> Valid(c)
    ensures c.current == 0 && c.offset == 0
  {
    Cursor(total, height, 0, 0)
  }

  function MoveUp(c: Cursor): (r: Cursor)
    ensures Valid(c) ==> Valid(r)
    ensures c.current > 0 ==> r.current == c.current - 1
    ensures c.current <= 0 ==> r == c
  {
    if c.current > 0 then EnsureVisible(c.(current := c.current - 1)) else c
  }

  function MoveDown(c: Cursor): (r: Cursor)
    ensures Valid(c) ==> Valid(r)
    ensures c.current < c.total - 1 ==> r.current == c.current + 1
    ensures c.current >= c.total - 1 ==> r == c
  {
    if c.current < c.total - 1 then EnsureVisible(c.(current := c.current + 1)) else c
  }

  function MoveHome(c: Cursor): (r: Cursor)
    ensures Valid(c) ==> Valid(r)
    ensures r.current == 0
    ensures Valid(c) && c.height > 0 ==> r.offset == 0
  {
    EnsureVisible(c.(current := 0))
  }

  function MoveEnd(c: Cursor): (r: Cursor)
    ensures Valid(c) ==> Valid(r)
    ensures c.total > 0 ==> r.current == c.total - 1
    ensures c.total <= 0 ==> r.current == 0
    ensures c.height > 0 ==> r.offset == MaxOffset(c)
  {
    EnsureVisible(c.(current := Max(0, c.total - 1)))
  }

  /** Page up: the cursor goes `height` rows up, stopping at row 0. */
  function MovePageUp(c: Cursor): (r: Cursor)
    ensures Valid(c) && c.height >= 0 ==> Valid(r)
    ensures c.current - c.height >= 0 ==> r.current == c.current - c.height
    ensures c.current - c.height < 0 ==> r.current == 0
  {
    EnsureVisible(c.(current := Max(0, c.current - c.height)))
  }

  /** Page down: the cursor goes `height` rows down, stopping at the last
      row (at -1 when there are no rows). */
  function MovePageDown(c: Cursor): (r: Cursor)
    ensures Valid(c) && c.height >= 0 ==> Valid(r)
    ensures c.current + c.height <= c.total - 1 ==> r.current == c.current + c.height
    ensures c.current + c.height > c.total - 1 ==> r.current == c.total - 1
  {
    EnsureVisible(c.(current := Min(c.total - 1, c.current + c.height)))
  }

  /** `getVisibleRange` as its first and last index (empty when last < first). */
  function VisibleRange(c: Cursor): (r: (int, int))
    ensures r.0 == c.offset
    ensures r.1 - r.0 + 1 == Min(c.height, c.total - c.offset)
    ensures Valid(c) && c.total > 0 && c.height > 0 ==> 0 <= r.0 <= c.current <= r.1 < c.total
  {
    (c.offset, Min(c.offset + c.height - 1, c.total - 1))
  }

  /** `getCurrentRowRelativePosition`. */
  function RelativePosition(c: Cursor): (r: Option<int>)
    ensures r.Some? <==> c.offset <= c.current < c.offset + c.height && c.current < c.total
    ensures r.Some? ==> r.value == c.current - c.offset
  {
    var (first, last) := VisibleRange(c);
    if first <= c.current <= last then Some(c.current - c.offset) else None
  }

  /** In a valid state with rows and a positive height, the highlighted row
      is always on screen, on a line of the window. */
  lemma HighlightedRowOnScreen(c: Cursor)
    requires Valid(c) && c.total > 0 && c.height > 0
    ensures RelativePosition(c).Some?
    ensures 0 <= RelativePosition(c).value < Min(c.height, c.total - c.offset)
  {
  }

  /** `toggleSelection` on the selected set. */
  function Toggled(selected: set<int>, i: int): (r: set<int>)
    ensures forall x :: x in r <==> (x in selected) != (x == i)
  {
    if i in selected then selected - {i} else selected + {i}
  }

  lemma ToggleTwice(selected: set<int>, i: int)
    ensures Toggled(Toggled(selected, i), i) == selected
  {
  }

  /** The selected indices in `0 until n`, in increasing order. */
  function SelectedBelow(selected: set<int>, n: int): (r: seq<int>)
    ensures forall i, j :: 0 <= i < j < |r| ==> r[i] < r[j]
    ensures forall i :: 0 <= i < |r| ==> 0 <= r[i] < n && r[i] in selected
    ensures forall x :: x in selected && 0 <= x < n ==> x in r
    decreases Max(0, n)
  {
    if n <= 0 then []
    else SelectedBelow(selected, n - 1) + (if n - 1 in selected then [n - 1] else [])
  }

  /** `getSelectedRows`: the rows at the selected indices, in index order,
      indices that are not rows being skipped. */
  function SelectedRows<T>(rows: seq<T>, selected: set<int>): (r: seq<T>)
    ensures |r| == |SelectedBelow(selected, |rows|)|
    ensures forall i :: 0 <= i < |r| ==> r[i] == rows[SelectedBelow(selected, |rows|)[i]]
  {
    var indices := SelectedBelow(selected, |rows|);
    seq(|indices|, i requires 0 <= i < |indices| => rows[indices[i]])
  }

  /** The walk the behaviour checks go through: with 100 rows and a window of
      10, nine downs keep the window still and the tenth scrolls by one. */
  lemma ScrollScenario()
    ensures var c := Initial(100, 10);
            MoveDown(MoveDown(MoveDown(MoveDown(MoveDown(MoveDown(MoveDown(MoveDown(MoveDown(c))))))))) == Cursor(100, 10, 9, 0)
    ensures MoveDown(Cursor(100, 10, 9, 0)) == Cursor(100, 10, 10, 1)
    ensures MoveEnd(Initial(100, 10)) == Cursor(100, 10, 99, 90)
    ensures MoveHome(Cursor(100, 10, 99, 90)) == Cursor(100, 10, 0, 0)
    ensures MovePageDown(Initial(100, 10)) == Cursor(100, 10, 10, 1)
    ensures MovePageUp(Cursor(100, 10, 10, 1)) == Cursor(100, 10, 0, 0)
  {
  }

  /** Home and End are idempotent. */
  lemma HomeEndIdempotent(c: Cursor)
    ensures MoveHome(MoveHome(c)) == MoveHome(c)
    ensures MoveEnd(MoveEnd(c)) == MoveEnd(c)
  {
  }

  /** With no rows, moving down does nothing and page down leaves the cursor
      at -1, where no row is current. */
  lemma EmptyTable(height: int)
    requires height > 0
    ensures MoveDown(Initial(0, height)) == Initial(0, height)
    ensures MovePageDown(Initial(0, height)) == Cursor(0, height, -1, 0)
    ensures RelativePosition(Initial(0, height)).None?
  {
  }

  /** The state object. The data source is the list of rows. */
  class VirtualTableState<T> {
    const rows: seq<T>
    const visibleHeight: int
    var currentRowIndex: int
    var scrollOffset: int
    var selectedIndices: set<int>

    function Nav(): (c: Cursor)
      reads this
      ensures c == Cursor(|rows|, visibleHeight, currentRowIndex, scrollOffset)
    {
      Cursor(|rows|, visibleHeight, currentRowIndex, scrollOffset)
    }

    constructor (rows: seq<T>, visibleHeight: int)
      ensures this.rows == rows && this.visibleHeight == visibleHeight
      ensures Nav() == Initial(|rows|, visibleHeight) && selectedIndices == {}
    {
      this.rows := rows;
      this.visibleHeight := visibleHeight;
      currentRowIndex := 0;
      scrollOffset := 0;
      selectedIndices := {};
    }

    function TotalRows(): (n: nat)
      ensures n == |rows|
    {
      |rows|
    }

    method EnsureVisibleNow()
      modifies this`scrollOffset
      ensures Nav() == EnsureVisible(old(Nav()))
    {
      if currentRowIndex < scrollOffset {
        scrollOffset := currentRowIndex;
      }
      if currentRowIndex >= scrollOffset + visibleHeight {
        scrollOffset := currentRowIndex - visibleHeight + 1;
      }
      scrollOffset := Clamp(scrollOffset, 0, Max(0, |rows| - visibleHeight));
    }

    method MoveUpRow()
      modifies this`currentRowIndex, this`scrollOffset
      ensures Nav() == MoveUp(old(Nav()))
    {
      if currentRowIndex > 0 {
        currentRowIndex := currentRowIndex - 1;
        EnsureVisibleNow();
      }
    }

    method MoveDownRow()
      modifies this`currentRowIndex, this`scrollOffset
      ensures Nav() == MoveDown(old(Nav()))
    {
      if currentRowIndex < |rows| - 1 {
        currentRowIndex := currentRowIndex + 1;
        EnsureVisibleNow();
      }
    }

    method MoveHomeRow()
      modifies this`currentRowIndex, this`scrollOffset
      ensures Nav() == MoveHome(old(Nav()))
    {
      currentRowIndex := 0;
      EnsureVisibleNow();
    }

    method MoveEndRow()
      modifies this`currentRowIndex, this`scrollOffset
      ensures Nav() == MoveEnd(old(Nav()))
    {
      currentRowIndex := Max(0, |rows| - 1);
      EnsureVisibleNow();
    }

    method MovePageUpRows()
      modifies this`currentRowIndex, this`scrollOffset
      ensures Nav() == MovePageUp(old(Nav()))
    {
      currentRowIndex := Max(0, currentRowIndex - visibleHeight);
      EnsureVisibleNow();
    }

    method MovePageDownRows()
      modifies this`currentRowIndex, this`scrollOffset
      ensures Nav() == MovePageDown(old(Nav()))
    {
      currentRowIndex := Min(|rows| - 1, currentRowIndex + visibleHeight);
      EnsureVisibleNow();
    }

    /** `getVisibleRows`: the source's `getRange(scrollOffset, visibleHeight)`,
        or nothing when there are no rows. */
    function GetVisibleRows(): (r: Result<seq<T>, SourceError>)
      reads this
      ensures |rows| == 0 ==> r == Success([])
      ensures Valid(Nav()) && visibleHeight >= 0 ==> r.Success? && |r.value| <= visibleHeight
      ensures Valid(Nav()) && visibleHeight >= 0 && |rows| > 0 ==>
        r.value == rows[scrollOffset..Min(scrollOffset + visibleHeight, |rows|)]
    {
      if |rows| == 0 then Success([])
      else InMemoryDataSource(rows).GetRange(scrollOffset, visibleHeight)
    }

    function IsHighlighted(index: int): (b: bool)
      reads this
      ensures b <==> index == currentRowIndex
    {
      index == currentRowIndex
    }

    function IsSelected(index: int): (b: bool)
      reads this
      ensures b <==> index in selectedIndices
    {
      index in selectedIndices
    }

    method ToggleSelection()
      modifies this`selectedIndices
      ensures selectedIndices == Toggled(old(selectedIndices), currentRowIndex)
    {
      if currentRowIndex in selectedIndices {
        selectedIndices := selectedIndices - {currentRowIndex};
      } else {
        selectedIndices := selectedIndices + {currentRowIndex};
      }
    }

    /** `getCurrentSelection`: the highlighted row, if it is a row. */
    function GetCurrentSelection(): (r: Option<T>)
      reads this
      ensures r.Some? <==> 0 <= currentRowIndex < |rows|
      ensures r.Some? ==> r.value == rows[currentRowIndex]
      ensures Valid(Nav()) && |rows| > 0 ==> r.Some?
    {
      if |rows| > 0 && 0 <= currentRowIndex < |rows| then
        var got := InMemoryDataSource(rows).Get(currentRowIndex);
        Some(got.value)
      else None
    }

    function GetSelectedRows(): (r: seq<T>)
      reads this
      ensures r == SelectedRows(rows, selectedIndices)
    {
      SelectedRows(rows, selectedIndices)
    }

    method ClearSelection()
      modifies this`selectedIndices
      ensures selectedIndices == {}
    {
      selectedIndices := {};
    }

    function GetCurrentRowRelativePosition(): (r: Option<int>)
      reads this
      ensures r == RelativePosition(Nav())
    {
      RelativePosition(Nav())
    }
  }
}
