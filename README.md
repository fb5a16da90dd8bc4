# picotea terminal components, modelled in Dafny

This project models the core of **picotea**, a Kotlin library of terminal widgets for picocli
programs. It covers the following components:

- **Interactive virtual table**:
  - `VirtualTableState`: a cursor, a scroll window and a multi-selection over a data source;
  - `VirtualTable`: key dispatch;
  - `VirtualTableRenderer`: frame layout;
  - the selection and table styles;
  - the data sources, both the in-memory list and the lazy, cached fetcher.
- **Keyboard decoding**:
  - `KeyEvent.parse`, over a byte array;
  - `KeyboardInput.readKey`, over a stream of reads with CSI, SS3 and numbered escape
    sequences. These follow the control-sequence syntax of ECMA-48 (section 5.4) and the
    DEC VT100/VT220 key codes.
- **Static table** (`Table`): column-width calculation, cell padding, ellipsis truncation and the
  line structure of a rendered table.
- **Progress bar and spinner**:
  - `ProgressRenderer`: the bar width, determinate and indeterminate bars, and duration formatting;
  - the `ProgressBar` counter and its suffix;
  - the `Spinner` frame counter.
- **The four fluent builders.**

The mutable objects are Dafny classes. Each method is specified against a pure function of the
old state:
- `VirtualTableState`, `VirtualTable` and `KeyboardInput`;
- `LazyDataSource`, `ProgressBar` and `Spinner`;
- the builders.

Pure logic is functions with lemmas: key tables, cursor arithmetic, padding, layout and line
assembly. Output that the source prints is collected instead:
- rendered frames and lines are appended to a `frames` or `lines` field;
- the `onSelect` callback is represented by the rows it receives.

## Model

| member | source | states |
|---|---|---|
| KeyEvents.FinalKey | components/src/main/kotlin/com/cartobucket/picocli/components/input/KeyEvent.kt:70-78 | the third byte of `ESC [ x` names a key exactly for A, B, C, D, F, H |
| KeyEvents.TildeKey | components/src/main/kotlin/com/cartobucket/picocli/components/input/KeyEvent.kt:84-91 | `ESC [ n ~` names a key exactly for n in 1, 3, 4, 5, 6 (Home, Delete, End, PageUp, PageDown) |
| KeyEvents.ToIntOrNull | components/src/main/kotlin/com/cartobucket/picocli/components/input/KeyEvent.kt:83 | `toIntOrNull` of the bytes between `[` and `~`: null on empty input, a value only within Int range |
| KeyEvents.DigitsValueOfDecimal | components/src/main/kotlin/com/cartobucket/picocli/components/input/KeyEvent.kt:83 | reading back the decimal digits of n gives n |
| KeyEvents.ToIntOrNullOfDecimal | components/src/main/kotlin/com/cartobucket/picocli/components/input/KeyEvent.kt:83 | round trip: `toIntOrNull` of n written in decimal is n for every n in 0..Int.MAX_VALUE |
| KeyEvents.ToIntOrNullOfSigned | components/src/main/kotlin/com/cartobucket/picocli/components/input/KeyEvent.kt:83 | round trip with a sign: `-` then m in decimal is -m for every m in 0..2^31 (down to Int.MIN_VALUE), and `+` then n is n for every n in 0..Int.MAX_VALUE |
| KeyEvents.ParseSingleByte | components/src/main/kotlin/com/cartobucket/picocli/components/input/KeyEvent.kt:56-65 | a single byte never decodes to a Ctrl chord |
| KeyEvents.ParseEscapeSequence | components/src/main/kotlin/com/cartobucket/picocli/components/input/KeyEvent.kt:67-95 | an escape sequence never decodes to a Ctrl chord |
| KeyEvents.Parse | components/src/main/kotlin/com/cartobucket/picocli/components/input/KeyEvent.kt:35-54 | empty input, two bytes, input not starting `ESC [`, and four or more bytes not ending in `~` all give Unknown; the Ctrl branch (lines 48-50) is unreachable, so no input gives Ctrl |
| KeyEvents.ParseOneByte | components/src/main/kotlin/com/cartobucket/picocli/components/input/KeyEvent.kt:56-65 | the one-byte table, each entry as an if-and-only-if: ESC, CR/LF, TAB, DEL, printable ASCII as Char with its code, everything else Unknown |
| KeyEvents.ParseCsiLetter | components/src/main/kotlin/com/cartobucket/picocli/components/input/KeyEvent.kt:69-79 | a three-byte `ESC [ x` decodes by the cursor-key table |
| KeyEvents.ParseNumbered | components/src/main/kotlin/com/cartobucket/picocli/components/input/KeyEvent.kt:82-92 | `ESC [` then n in decimal then `~` decodes by the numbered-key table, for every n in 0..Int.MAX_VALUE (n ≥ 0) |
| KeyEvents.ParseNumberedNegative | components/src/main/kotlin/com/cartobucket/picocli/components/input/KeyEvent.kt:82-92 | `ESC [ -` then m in decimal then `~` decodes as the numbered key -m, for every m in 0..2^31 |
| KeyEvents.ParseIgnoresSs3 | components/src/main/kotlin/com/cartobucket/picocli/components/input/KeyEvent.kt:43-45 | `parse` does not recognise the SS3 prefix `ESC O` |
| Keyboard.NumberedFrom | components/src/main/kotlin/com/cartobucket/picocli/components/input/KeyboardInput.kt:168-196 | the numbered decoder reads at most 5 digits in all; the keys it yields are among Unknown, Home, Delete, End, PageUp, PageDown |
| Keyboard.CsiFrom | components/src/main/kotlin/com/cartobucket/picocli/components/input/KeyboardInput.kt:123-141 | after `ESC [` the decoder consumes between 1 and 5 more reads |
| Keyboard.Ss3From | components/src/main/kotlin/com/cartobucket/picocli/components/input/KeyboardInput.kt:146-163 | after `ESC O` the decoder consumes exactly one more read |
| Keyboard.EscapeFrom | components/src/main/kotlin/com/cartobucket/picocli/components/input/KeyboardInput.kt:106-118 | after ESC the decoder consumes between 1 and 6 more reads |
| Keyboard.ReadKeyFrom | components/src/main/kotlin/com/cartobucket/picocli/components/input/KeyboardInput.kt:79-101 | one `readKey` consumes between 1 and 7 reads |
| Keyboard.KeyboardInput.constructor | components/src/main/kotlin/com/cartobucket/picocli/components/input/KeyboardInput.kt:12-16 | a new input is not in raw mode and has no reader |
| Keyboard.KeyboardInput.EnableRawMode | components/src/main/kotlin/com/cartobucket/picocli/components/input/KeyboardInput.kt:25-48 | on success raw mode is on and a reader exists; on failure nothing changes |
| Keyboard.KeyboardInput.DisableRawMode | components/src/main/kotlin/com/cartobucket/picocli/components/input/KeyboardInput.kt:53-73 | no effect unless raw mode is on; otherwise the reader is always dropped, and the flag is cleared unless restoring the terminal throws |
| Keyboard.KeyboardInput.Read | components/src/main/kotlin/com/cartobucket/picocli/components/input/KeyboardInput.kt:85 | a read returns the next item of the input and advances by one |
| Keyboard.KeyboardInput.ReadKey | components/src/main/kotlin/com/cartobucket/picocli/components/input/KeyboardInput.kt:79-101 | null without raw mode or reader, consuming nothing; otherwise the event and position are those of the decoder function |
| Keyboard.KeyboardInput.ParseEscapeSequence | components/src/main/kotlin/com/cartobucket/picocli/components/input/KeyboardInput.kt:106-118 | matches the escape decoder function |
| Keyboard.KeyboardInput.ParseCsiSequence | components/src/main/kotlin/com/cartobucket/picocli/components/input/KeyboardInput.kt:123-141 | matches the CSI decoder function |
| Keyboard.KeyboardInput.ParseSs3Sequence | components/src/main/kotlin/com/cartobucket/picocli/components/input/KeyboardInput.kt:146-163 | matches the SS3 decoder function |
| Keyboard.KeyboardInput.ParseNumberedSequence | components/src/main/kotlin/com/cartobucket/picocli/components/input/KeyboardInput.kt:168-196 | the loop matches the numbered decoder function |
| Keyboard.ReadKeyConsumption | components/src/main/kotlin/com/cartobucket/picocli/components/input/KeyboardInput.kt:79-101 | every `readKey` makes progress and reads at most 7 items |
| Keyboard.ReadKeyNull | components/src/main/kotlin/com/cartobucket/picocli/components/input/KeyboardInput.kt:87-89 | a timeout, end of input or a failing read gives null after one read |
| Keyboard.ReadKeySingleByte | components/src/main/kotlin/com/cartobucket/picocli/components/input/KeyboardInput.kt:90-96 | the single-byte table, each entry as an if-and-only-if: CR/LF Enter, TAB, DEL Backspace, 1..26 Ctrl with letter `'a'+c-1`, 32..126 Char, the rest Unknown |
| Keyboard.EscapeAlone | components/src/main/kotlin/com/cartobucket/picocli/components/input/KeyboardInput.kt:110-117 | ESC followed by anything but `[` or `O` is Escape after two reads |
| Keyboard.CursorKeySequences | components/src/main/kotlin/com/cartobucket/picocli/components/input/KeyboardInput.kt:131-161 | `ESC [ x` and `ESC O x` with a non-digit x decode by the cursor-key table in three reads |
| Keyboard.NumberedDigitsThenTilde | components/src/main/kotlin/com/cartobucket/picocli/components/input/KeyboardInput.kt:173-189 | digits then `~` within 5 digits give the numbered key of the digits' value |
| Keyboard.NumberedSequence | components/src/main/kotlin/com/cartobucket/picocli/components/input/KeyboardInput.kt:168-189 | `ESC [`, 1 to 4 digits and `~` decode to the numbered key of those digits |
| Keyboard.NumberedOverflow | components/src/main/kotlin/com/cartobucket/picocli/components/input/KeyboardInput.kt:173-195 | once the buffer holds 5 digits the decoder stops with Unknown |
| Keyboard.FiveDigitsGiveUnknown | components/src/main/kotlin/com/cartobucket/picocli/components/input/KeyboardInput.kt:173-195 | `ESC [` and five digits give Unknown after 7 reads, whatever follows |
| Keyboard.DecodersDisagree | components/src/main/kotlin/com/cartobucket/picocli/components/input/KeyboardInput.kt:90-96 | a Ctrl byte and an SS3 cursor key decode to keys by `readKey` but to Unknown by `KeyEvent.parse` |
| DataSources.InMemoryDataSource.Size | components/src/main/kotlin/com/cartobucket/picocli/components/table/DataSource.kt:33-34 | the size is the length of the list |
| DataSources.InMemoryDataSource.Get | components/src/main/kotlin/com/cartobucket/picocli/components/table/DataSource.kt:36-39 | succeeds exactly for an index in range, with that element; otherwise an out-of-bounds error |
| DataSources.InMemoryDataSource.GetRange | components/src/main/kotlin/com/cartobucket/picocli/components/table/DataSource.kt:41-46 | empty from or past the end; fails exactly when start is before the end and start or count is negative; otherwise `min(count, size-start)` elements from start |
| DataSources.Cached | components/src/main/kotlin/com/cartobucket/picocli/components/table/DataSource.kt:74-78 | the cache after storing fetched items holds them at their indices and keeps every other entry |
| DataSources.LazyDataSource.constructor | components/src/main/kotlin/com/cartobucket/picocli/components/table/DataSource.kt:53-57 | a new lazy source has an empty cache |
| DataSources.LazyDataSource.Get | components/src/main/kotlin/com/cartobucket/picocli/components/table/DataSource.kt:59-66 | out of range fails; a cached index is served from the cache; otherwise one item is fetched and cached, and an empty fetch is an error |
| DataSources.LazyDataSource.GetRange | components/src/main/kotlin/com/cartobucket/picocli/components/table/DataSource.kt:68-80 | empty from the end on; otherwise `min(count, size-start)` items are fetched and every one is cached at its index |
| DataSources.LazyDataSource.ClearCache | components/src/main/kotlin/com/cartobucket/picocli/components/table/DataSource.kt:85-87 | the cache is empty |
| DataSources.LazyDataSource.GetAgrees | components/src/main/kotlin/com/cartobucket/picocli/components/table/DataSource.kt:59-66 | with a fetcher that serves a list, `get` answers as the in-memory source over that list and the cache stays consistent |
| DataSources.LazyDataSource.GetRangeAgrees | components/src/main/kotlin/com/cartobucket/picocli/components/table/DataSource.kt:68-80 | with a fetcher that serves a list, `getRange` answers as the in-memory source over that list |
| TableState.MaxOffset | components/src/main/kotlin/com/cartobucket/picocli/components/table/VirtualTableState.kt:170-175 | the largest scroll offset is `max(0, total-height)` |
| TableState.EnsureVisible | components/src/main/kotlin/com/cartobucket/picocli/components/table/VirtualTableState.kt:164-177 | the offset ends in `[0, maxOffset]`; a row above the window becomes its first row, a row below it becomes its last row (`current - height + 1`), a row inside it keeps the offset, each clamped into `[0, maxOffset]`; the current row is on screen whenever there are rows and a positive height |
| TableState.EnsureVisibleExamples | components/src/main/kotlin/com/cartobucket/picocli/components/table/VirtualTableState.kt:164-177 | with 100 rows and a window of 10: row 10 below offset 0 scrolls to offset 1, row 4 above offset 5 scrolls to 4, row 99 scrolls to the last offset 90 |
| TableState.Initial | components/src/main/kotlin/com/cartobucket/picocli/components/table/VirtualTableState.kt:9-27 | the cursor starts at row 0 and offset 0, which is a valid state for any row count |
| TableState.MoveUp | components/src/main/kotlin/com/cartobucket/picocli/components/table/VirtualTableState.kt:39-44 | keeps the state valid; moves up by exactly one except at row 0, where nothing changes |
| TableState.MoveDown | components/src/main/kotlin/com/cartobucket/picocli/components/table/VirtualTableState.kt:49-54 | keeps the state valid; moves down by exactly one except at the last row, where nothing changes |
| TableState.MoveHome | components/src/main/kotlin/com/cartobucket/picocli/components/table/VirtualTableState.kt:59-62 | keeps the state valid; the cursor is 0, and the offset is 0 when the height is positive |
| TableState.MoveEnd | components/src/main/kotlin/com/cartobucket/picocli/components/table/VirtualTableState.kt:67-70 | keeps the state valid; the cursor is `max(0, total-1)` and the offset is the largest one |
| TableState.MovePageUp | components/src/main/kotlin/com/cartobucket/picocli/components/table/VirtualTableState.kt:75-78 | keeps the state valid; the cursor is `max(0, cur-height)` |
| TableState.MovePageDown | components/src/main/kotlin/com/cartobucket/picocli/components/table/VirtualTableState.kt:83-86 | keeps the state valid; the cursor is `min(total-1, cur+height)` |
| TableState.VisibleRange | components/src/main/kotlin/com/cartobucket/picocli/components/table/VirtualTableState.kt:91-95 | the range starts at the offset and holds `min(height, total-offset)` rows; on a valid state with rows and a window it lies within the rows and contains the current row |
| TableState.RelativePosition | components/src/main/kotlin/com/cartobucket/picocli/components/table/VirtualTableState.kt:183-190 | defined exactly when the current row lies in the window, and then it is the row's distance from the offset |
| TableState.HighlightedRowOnScreen | components/src/main/kotlin/com/cartobucket/picocli/components/table/VirtualTableState.kt:183-190 | in every valid state with rows and a positive height the current row has a screen position inside the visible rows |
| TableState.Toggled | components/src/main/kotlin/com/cartobucket/picocli/components/table/VirtualTableState.kt:122-128 | toggling flips membership of that one index only |
| TableState.ToggleTwice | components/src/main/kotlin/com/cartobucket/picocli/components/table/VirtualTableState.kt:122-128 | toggling the same index twice restores the set |
| TableState.SelectedBelow | components/src/main/kotlin/com/cartobucket/picocli/components/table/VirtualTableState.kt:144-152 | the selected in-range indices, strictly ascending and complete |
| TableState.SelectedRows | components/src/main/kotlin/com/cartobucket/picocli/components/table/VirtualTableState.kt:144-152 | the selected rows are those at the ascending in-range selected indices |
| TableState.ScrollScenario | components/src/main/kotlin/com/cartobucket/picocli/components/table/VirtualTableState.kt:39-86 | with 100 rows and height 10: nine downs give (9,0) and a tenth (10,1); End gives (99,90); Home returns to (0,0); a page down and back up |
| TableState.HomeEndIdempotent | components/src/main/kotlin/com/cartobucket/picocli/components/table/VirtualTableState.kt:59-70 | Home twice equals Home once, End twice equals End once |
| TableState.EmptyTable | components/src/main/kotlin/com/cartobucket/picocli/components/table/VirtualTableState.kt:49-54 | with no rows Down changes nothing, Page Down sets the cursor to -1, and no row has a screen position |
| TableState.VirtualTableState.Nav | components/src/main/kotlin/com/cartobucket/picocli/components/table/VirtualTableState.kt:9-27 | the cursor view of the state's fields |
| TableState.VirtualTableState.constructor | components/src/main/kotlin/com/cartobucket/picocli/components/table/VirtualTableState.kt:9-28 | the state starts at the initial cursor with nothing selected |
| TableState.VirtualTableState.TotalRows | components/src/main/kotlin/com/cartobucket/picocli/components/table/VirtualTableState.kt:17 | the number of rows of the source |
| TableState.VirtualTableState.EnsureVisibleNow | components/src/main/kotlin/com/cartobucket/picocli/components/table/VirtualTableState.kt:164-177 | updates the offset as the scroll rule says |
| TableState.VirtualTableState.MoveUpRow | components/src/main/kotlin/com/cartobucket/picocli/components/table/VirtualTableState.kt:39-44 | the new cursor is the Up transition of the old |
| TableState.VirtualTableState.MoveDownRow | components/src/main/kotlin/com/cartobucket/picocli/components/table/VirtualTableState.kt:49-54 | the new cursor is the Down transition of the old |
| TableState.VirtualTableState.MoveHomeRow | components/src/main/kotlin/com/cartobucket/picocli/components/table/VirtualTableState.kt:59-62 | the new cursor is the Home transition of the old |
| TableState.VirtualTableState.MoveEndRow | components/src/main/kotlin/com/cartobucket/picocli/components/table/VirtualTableState.kt:67-70 | the new cursor is the End transition of the old |
| TableState.VirtualTableState.MovePageUpRows | components/src/main/kotlin/com/cartobucket/picocli/components/table/VirtualTableState.kt:75-78 | the new cursor is the PageUp transition of the old |
| TableState.VirtualTableState.MovePageDownRows | components/src/main/kotlin/com/cartobucket/picocli/components/table/VirtualTableState.kt:83-86 | the new cursor is the PageDown transition of the old |
| TableState.VirtualTableState.GetVisibleRows | components/src/main/kotlin/com/cartobucket/picocli/components/table/VirtualTableState.kt:100-103 | no rows gives an empty list; in a valid state it succeeds with at most `height` rows, the slice of the source starting at the offset |
| TableState.VirtualTableState.IsHighlighted | components/src/main/kotlin/com/cartobucket/picocli/components/table/VirtualTableState.kt:108-110 | true exactly for the current row |
| TableState.VirtualTableState.IsSelected | components/src/main/kotlin/com/cartobucket/picocli/components/table/VirtualTableState.kt:115-117 | true exactly for selected indices |
| TableState.VirtualTableState.ToggleSelection | components/src/main/kotlin/com/cartobucket/picocli/components/table/VirtualTableState.kt:122-128 | flips the current row in the selection and leaves the cursor alone |
| TableState.VirtualTableState.GetCurrentSelection | components/src/main/kotlin/com/cartobucket/picocli/components/table/VirtualTableState.kt:133-139 | the current row when the index is in range, else null; in a valid state with rows there always is one |
| TableState.VirtualTableState.GetSelectedRows | components/src/main/kotlin/com/cartobucket/picocli/components/table/VirtualTableState.kt:144-152 | the selected in-range rows in ascending index order |
| TableState.VirtualTableState.ClearSelection | components/src/main/kotlin/com/cartobucket/picocli/components/table/VirtualTableState.kt:157-159 | the selection is empty |
| TableState.VirtualTableState.GetCurrentRowRelativePosition | components/src/main/kotlin/com/cartobucket/picocli/components/table/VirtualTableState.kt:183-190 | the screen position of the current row |
| Styles.SelectionStyle.Prefix | components/src/main/kotlin/com/cartobucket/picocli/components/table/VirtualTableStyle.kt:15-26 | a style with no colours and no flags has an empty prefix |
| Styles.SelectionStyle.Apply | components/src/main/kotlin/com/cartobucket/picocli/components/table/VirtualTableStyle.kt:15-30 | a plain style returns the text unchanged; otherwise the text sits between the prefix and the reset sequence (SGR 0, section 8.3.117 of ECMA-48) and can be recovered from the middle |
| Styles.NoneAndHighlight | components/src/main/kotlin/com/cartobucket/picocli/components/table/VirtualTableStyle.kt:36-43 | NONE is the identity; HIGHLIGHT wraps the text in reverse video and reset |
| Styles.ColouredPresets | components/src/main/kotlin/com/cartobucket/picocli/components/table/VirtualTableStyle.kt:48-70 | the exact escape prefixes of SELECTION, HEADER and FOOTER |
| Styles.PresetFlags | components/src/main/kotlin/com/cartobucket/picocli/components/table/VirtualTableStyle.kt:91-116 | the flags and base styles of the DEFAULT, MINIMAL and COMPACT presets |
| Cells.Take | components/src/main/kotlin/com/cartobucket/picocli/components/table/Table.kt:248-252 | `take(n)` is the prefix of length `min(n, length)` |
| Cells.Lead | components/src/main/kotlin/com/cartobucket/picocli/components/table/Table.kt:257-268 | the left fill of an alignment; centring puts the odd space on the right |
| Cells.PadCell | components/src/main/kotlin/com/cartobucket/picocli/components/table/Table.kt:247-270 | a padded cell is always `width + 2*padding` long |
| Cells.PadCellShape | components/src/main/kotlin/com/cartobucket/picocli/components/table/Table.kt:247-270 | a padded cell is padding, the left fill, the content cut to the width, the right fill, padding |
| Cells.PadCellPlacement | components/src/main/kotlin/com/cartobucket/picocli/components/table/Table.kt:257-268 | content that fits sits at the left, the right or the centre of the cell as aligned |
| Cells.Ellipsize | components/src/main/kotlin/com/cartobucket/picocli/components/table/VirtualTableRenderer.kt:184-189 | a long value in a truncating column becomes its first `width-3` characters and `...` |
| Cells.EllipsizeAsWritten | components/src/main/kotlin/com/cartobucket/picocli/components/table/VirtualTableRenderer.kt:184-189 | the as-written truncation throws exactly when a long value meets a width below 3, and otherwise equals the corrected one |
| Cells.NarrowColumnCrash | components/src/main/kotlin/com/cartobucket/picocli/components/table/VirtualTableRenderer.kt:184-189 | "abc" in a truncating column of width 2 makes `take(-1)` throw |
| Cells.EllipsizedCellFits | components/src/main/kotlin/com/cartobucket/picocli/components/table/Table.kt:207-213 | the truncated value still pads to exactly the cell width and keeps the value's prefix |
| Cells.Segments | components/src/main/kotlin/com/cartobucket/picocli/components/table/Table.kt:139-140 | each column contributes `width + 2*padding` horizontal glyphs |
| Cells.BuildBorder | components/src/main/kotlin/com/cartobucket/picocli/components/table/Table.kt:135-148 | the border loop builds the border line of the column widths |
| Cells.BuildRow | components/src/main/kotlin/com/cartobucket/picocli/components/table/Table.kt:200-224 | the row loop builds cells separated by the vertical bar, with outer bars only with borders |
| Cells.RowMatchesBorder | components/src/main/kotlin/com/cartobucket/picocli/components/table/Table.kt:135-224 | with one-character glyphs a bordered row is exactly as long as the border lines |
| Tables.LongestValue | components/src/main/kotlin/com/cartobucket/picocli/components/table/Table.kt:105-108 | the longest cell text of a column, 0 without data |
| Tables.AutoWidth | components/src/main/kotlin/com/cartobucket/picocli/components/table/Table.kt:102-112 | an auto column is at least 3, at least its header and at least every value |
| Tables.AutoTotal | components/src/main/kotlin/com/cartobucket/picocli/components/table/Table.kt:118 | the auto widths' total is at least 3 when there is an auto column |
| Tables.ShrinkNeverGrows | components/src/main/kotlin/com/cartobucket/picocli/components/table/Table.kt:120-125 | when shrinking, each auto column stays between 3 and its start width |
| Tables.ColumnWidth | components/src/main/kotlin/com/cartobucket/picocli/components/table/Table.kt:81-130 | a fixed column is `max(3, width)`; an auto column keeps its start width unless the table shrinks, and then gets its proportional share but at least 3 |
| Tables.ColumnWidths | components/src/main/kotlin/com/cartobucket/picocli/components/table/Table.kt:81-130 | one width per column, each the width rule above |
| Tables.RowCell | components/src/main/kotlin/com/cartobucket/picocli/components/table/Table.kt:207-213 | each data cell is exactly `width + 2*padding` long |
| Tables.RowCells | components/src/main/kotlin/com/cartobucket/picocli/components/table/Table.kt:206-221 | the cells of a row, one per column |
| Tables.HeaderCells | components/src/main/kotlin/com/cartobucket/picocli/components/table/Table.kt:159-161 | headers are centred in their columns |
| Tables.TableTruncationIsSafe | components/src/main/kotlin/com/cartobucket/picocli/components/table/Table.kt:207-209 | `Table`'s widths are at least 3, so its truncation never takes a negative count |
| Tables.Table.LayoutWidth | components/src/main/kotlin/com/cartobucket/picocli/components/table/Table.kt:54 | the fixed width, else the terminal width |
| Tables.Table.Widths | components/src/main/kotlin/com/cartobucket/picocli/components/table/Table.kt:55 | one width per column, each at least 3 |
| Tables.Table.HeadLines | components/src/main/kotlin/com/cartobucket/picocli/components/table/Table.kt:57-65 | top border (with borders), header, separator (when shown) |
| Tables.Table.TailLines | components/src/main/kotlin/com/cartobucket/picocli/components/table/Table.kt:71-73 | a bottom border only with borders |
| Tables.Table.Lines | components/src/main/kotlin/com/cartobucket/picocli/components/table/Table.kt:53-76 | one line per row plus header, borders and separator as the style says |
| Tables.Table.BodyLines | components/src/main/kotlin/com/cartobucket/picocli/components/table/Table.kt:67-69 | one data line per row, in order |
| Tables.Table.BuildHead | components/src/main/kotlin/com/cartobucket/picocli/components/table/Table.kt:57-65 | builds the head lines |
| Tables.Table.BuildBody | components/src/main/kotlin/com/cartobucket/picocli/components/table/Table.kt:67-69 | the loop over the rows builds the body lines |
| Tables.Table.Render | components/src/main/kotlin/com/cartobucket/picocli/components/table/Table.kt:53-76 | `render` writes exactly the table's lines |
| Tables.Table.SumFixed | components/src/main/kotlin/com/cartobucket/picocli/components/table/Table.kt:94-98 | the loop sums the fixed widths, taking an auto column as 0 |
| Tables.Table.StartWidths | components/src/main/kotlin/com/cartobucket/picocli/components/table/Table.kt:94-112 | the loop gives each column its fixed or auto start width |
| Tables.Table.SumAuto | components/src/main/kotlin/com/cartobucket/picocli/components/table/Table.kt:115-118 | the loop finds whether any column is auto and totals their widths |
| Tables.Table.ShrinkAuto | components/src/main/kotlin/com/cartobucket/picocli/components/table/Table.kt:120-126 | the loop shrinks exactly the auto columns |
| Tables.Table.ComputeColumnWidths | components/src/main/kotlin/com/cartobucket/picocli/components/table/Table.kt:81-130 | `calculateColumnWidths` computes the width rule |
| Tables.Table.LongestValueLoop | components/src/main/kotlin/com/cartobucket/picocli/components/table/Table.kt:105-108 | the loop finds the longest value of a column |
| VirtualTableRendering.ColumnWidths | components/src/main/kotlin/com/cartobucket/picocli/components/table/VirtualTableRenderer.kt:87-106 | a fixed column keeps its width; auto columns share the width left after borders, padding and 10 reserved columns, and get at least 10 |
| VirtualTableRendering.CellStyle | components/src/main/kotlin/com/cartobucket/picocli/components/table/VirtualTableRenderer.kt:194-198 | the highlight style wins over the selection style; an unmarked cell is unstyled |
| VirtualTableRendering.FooterParts | components/src/main/kotlin/com/cartobucket/picocli/components/table/VirtualTableRenderer.kt:254-275 | "Row i of n" or "No data", then "k selected" when k > 0, then the key hints when enabled |
| VirtualTableRendering.Footer | components/src/main/kotlin/com/cartobucket/picocli/components/table/VirtualTableRenderer.kt:254-277 | the parts joined by " \| " with a space each side; with a styled footer, that text between the footer style's codes and the reset sequence |
| VirtualTableRendering.FooterExample | components/src/main/kotlin/com/cartobucket/picocli/components/table/VirtualTableRenderer.kt:254-277 | the footer at row 10 of 100 with nothing selected |
| VirtualTableRendering.VirtualTableRenderer.HeaderCells | components/src/main/kotlin/com/cartobucket/picocli/components/table/VirtualTableRenderer.kt:128-148 | one cell per column: the static table's centred header cell in the header style |
| VirtualTableRendering.VirtualTableRenderer.RowCell | components/src/main/kotlin/com/cartobucket/picocli/components/table/VirtualTableRenderer.kt:176-209 | the static table's cell for the value (ellipsised, padded to `width + 2*padding`, aligned), in the highlight style on the cursor's row, else in the selection style on a selected row, else unstyled |
| VirtualTableRendering.VirtualTableRenderer.RowCells | components/src/main/kotlin/com/cartobucket/picocli/components/table/VirtualTableRenderer.kt:176-209 | one `RowCell` per column; unstyled cells are exactly `width + 2*padding` long |
| VirtualTableRendering.VirtualTableRenderer.EmptyCells | components/src/main/kotlin/com/cartobucket/picocli/components/table/VirtualTableRenderer.kt:214-232 | a blank row has a space-filled cell per column |
| VirtualTableRendering.VirtualTableRenderer.RowLines | components/src/main/kotlin/com/cartobucket/picocli/components/table/VirtualTableRenderer.kt:53-64 | one line per visible row, highlighted exactly at the cursor and marked exactly where selected |
| VirtualTableRendering.VirtualTableRenderer.BuildFrame | components/src/main/kotlin/com/cartobucket/picocli/components/table/VirtualTableRenderer.kt:38-82 | the frame is the frame's lines, each ended by a newline, for the state's visible rows |
| VirtualTableRendering.VirtualTableRenderer.BuildFrameLines | components/src/main/kotlin/com/cartobucket/picocli/components/table/VirtualTableRenderer.kt:38-82 | the frame is top border, header, separator, rows, blank rows, bottom border and footer |
| VirtualTableRendering.VirtualTableRenderer.BuildRows | components/src/main/kotlin/com/cartobucket/picocli/components/table/VirtualTableRenderer.kt:53-64 | the loop builds the row lines |
| VirtualTableRendering.VirtualTableRenderer.BuildBlankRows | components/src/main/kotlin/com/cartobucket/picocli/components/table/VirtualTableRenderer.kt:66-69 | as many blank rows as the window lacks, none when full |
| VirtualTableRendering.AppendLines | components/src/main/kotlin/com/cartobucket/picocli/components/table/VirtualTableRenderer.kt:38-82 | the lines are joined with a newline after each |
| VirtualTableRendering.NewRenderer | components/src/main/kotlin/com/cartobucket/picocli/components/table/VirtualTableRenderer.kt:10-24 | the renderer keeps the columns and the style; it is valid when no fixed width is negative |
| VirtualTableRendering.FrameHeight | components/src/main/kotlin/com/cartobucket/picocli/components/table/VirtualTableRenderer.kt:38-82 | every frame has `4 + height` lines, plus one for the footer, whatever the row count |
| VirtualTableRendering.HighlightWins | components/src/main/kotlin/com/cartobucket/picocli/components/table/VirtualTableRenderer.kt:194-198 | the cursor's row is drawn highlighted even when it is selected |
| VirtualTables.Dispatch | components/src/main/kotlin/com/cartobucket/picocli/components/table/VirtualTable.kt:95-148 | navigation keys, quit (Escape, q, Q), toggle (space) and select (Enter), each as an if-and-only-if on the key |
| VirtualTables.IgnoredKeys | components/src/main/kotlin/com/cartobucket/picocli/components/table/VirtualTable.kt:143-145 | exactly Left, Right, Tab, Backspace, Delete, Unknown, Ctrl and other characters are ignored |
| VirtualTables.NavigationKeepsValid | components/src/main/kotlin/com/cartobucket/picocli/components/table/VirtualTable.kt:98-121 | every navigation key keeps the table state valid |
| VirtualTables.KeyStep | components/src/main/kotlin/com/cartobucket/picocli/components/table/VirtualTable.kt:95-148 | the effect of one key on cursor and selection: navigation moves the cursor, space toggles the current row, every other key changes neither |
| VirtualTables.KeyStepKeepsValid | components/src/main/kotlin/com/cartobucket/picocli/components/table/VirtualTable.kt:95-148 | one key keeps the cursor valid and keeps the row count and height |
| VirtualTables.ReplayKeepsValid | components/src/main/kotlin/com/cartobucket/picocli/components/table/VirtualTable.kt:95-148 | any sequence of keys keeps the cursor valid and keeps the row count and height |
| VirtualTables.InertKeys | components/src/main/kotlin/com/cartobucket/picocli/components/table/VirtualTable.kt:95-148 | keys that neither move nor toggle leave cursor and selection as they were |
| VirtualTables.SpaceTwice | components/src/main/kotlin/com/cartobucket/picocli/components/table/VirtualTable.kt:133-137 | space twice on the same row restores the selection |
| VirtualTables.HandledFromStops | components/src/main/kotlin/com/cartobucket/picocli/components/table/VirtualTable.kt:66-77 | the loop stops right after the first quitting key: none before it quits, and when keys are left over the last one handled quits |
| VirtualTables.QuitInSome | components/src/main/kotlin/com/cartobucket/picocli/components/table/VirtualTable.kt:128-142 | `QuitIn(keys, n)` holds exactly when one of the first n keys is Escape, q or Q |
| VirtualTables.VirtualTable.constructor | components/src/main/kotlin/com/cartobucket/picocli/components/table/VirtualTable.kt:12-30 | a new table is not running, needs a render, and starts at the initial cursor with nothing selected |
| VirtualTables.VirtualTable.CurrentFrame | components/src/main/kotlin/com/cartobucket/picocli/components/table/VirtualTableRenderer.kt:26-33 | the frame `renderFrame` draws: `buildFrame`'s lines for the state's cursor, selection, selection count and visible rows, each ended by a newline |
| VirtualTables.VirtualTable.RenderFrame | components/src/main/kotlin/com/cartobucket/picocli/components/table/VirtualTableRenderer.kt:26-33 | appends exactly that frame and records the view it shows |
| VirtualTables.VirtualTable.Start | components/src/main/kotlin/com/cartobucket/picocli/components/table/VirtualTable.kt:43-60 | fails when already running and changes nothing; otherwise runs, appends the frame of the current state and clears the render flag |
| VirtualTables.VirtualTable.Tick | components/src/main/kotlin/com/cartobucket/picocli/components/table/VirtualTable.kt:68-77 | appends the frame of the current state exactly when a render is needed, then clears the flag |
| VirtualTables.VirtualTable.Stop | components/src/main/kotlin/com/cartobucket/picocli/components/table/VirtualTable.kt:86-90 | the table is no longer running |
| VirtualTables.VirtualTable.Refresh | components/src/main/kotlin/com/cartobucket/picocli/components/table/VirtualTable.kt:171-175 | a render is needed |
| VirtualTables.VirtualTable.GetCurrentSelection | components/src/main/kotlin/com/cartobucket/picocli/components/table/VirtualTable.kt:153-157 | the state's current row |
| VirtualTables.VirtualTable.GetSelectedRows | components/src/main/kotlin/com/cartobucket/picocli/components/table/VirtualTable.kt:162-166 | the state's selected rows in ascending order |
| VirtualTables.VirtualTable.HandleKeyEvent | components/src/main/kotlin/com/cartobucket/picocli/components/table/VirtualTable.kt:95-148 | navigation moves the cursor and requests a render without touching the selection; quit stops; space toggles the current row; Enter hands the current row to the callback when both exist; other keys change nothing; the state stays valid |
| VirtualTables.VirtualTable.Pass | components/src/main/kotlin/com/cartobucket/picocli/components/table/VirtualTable.kt:62-77 | handling one key and one loop pass: the view is one more `Replay` step, the table keeps running unless the key quits, and the newest frame shows the view |
| VirtualTables.VirtualTable.Loop | components/src/main/kotlin/com/cartobucket/picocli/components/table/VirtualTable.kt:62-77 | the loop handles `HandledFrom(keys, 0)` keys, the cursor and selection are their `Replay`, the table runs on exactly when none of them quit, and the newest frame shows the final view |
| VirtualTables.VirtualTable.Run | components/src/main/kotlin/com/cartobucket/picocli/components/table/VirtualTable.kt:43-77 | start, then the loop: at least one frame more, the keys handled up to the first that quits, the cursor and selection as their `Replay`, and the newest frame showing that view |
| ProgressRendering.TerminalWidth | components/src/main/kotlin/com/cartobucket/picocli/components/ProgressRenderer.kt:27-39 | 80 unless auto-detection is on and `tput` printed a number |
| ProgressRendering.BarWidth | components/src/main/kotlin/com/cartobucket/picocli/components/ProgressRenderer.kt:44-52 | at least 10, and otherwise what the label, suffix, brackets and two spaces leave |
| ProgressRendering.FilledWidth | components/src/main/kotlin/com/cartobucket/picocli/components/ProgressRenderer.kt:86-88 | between 0 and the bar width; none without a total or progress; full at or past the total; otherwise the floor of `barWidth*current/total` |
| ProgressRendering.FilledMonotone | components/src/main/kotlin/com/cartobucket/picocli/components/ProgressRenderer.kt:86-88 | more progress never fills fewer cells |
| ProgressRendering.IndeterminateCellsShape | components/src/main/kotlin/com/cartobucket/picocli/components/ProgressRenderer.kt:105-113 | the cells before the glyph position are unfilled, then the glyph, then unfilled cells |
| ProgressRendering.IndeterminateBarShape | components/src/main/kotlin/com/cartobucket/picocli/components/ProgressRenderer.kt:101-116 | the glyph of `frame % size` sits at `frame % (barWidth+1)`; at position `barWidth` the bar shows no glyph |
| ProgressRendering.DeterminateBarLength | components/src/main/kotlin/com/cartobucket/picocli/components/ProgressRenderer.kt:90-95 | with one-character glyphs a bar is brackets plus `barWidth` cells |
| ProgressRendering.BuildBar | components/src/main/kotlin/com/cartobucket/picocli/components/ProgressRenderer.kt:74-96 | builds the bar; an indeterminate bar ignores current and total |
| ProgressRendering.BuildIndeterminateBar | components/src/main/kotlin/com/cartobucket/picocli/components/ProgressRenderer.kt:101-116 | the loop builds the indeterminate bar |
| ProgressRendering.FormatDuration | components/src/main/kotlin/com/cartobucket/picocli/components/ProgressRenderer.kt:121-135 | "Ns" under a minute; "Mm Ss" under an hour, which recomposes the seconds exactly; "Hh Mm" otherwise, dropping less than a minute |
| ProgressRendering.FormatDurationExamples | components/src/main/kotlin/com/cartobucket/picocli/components/ProgressRenderer.kt:121-135 | 59, 61 and 3725 seconds format as "59s", "1m 1s" and "1h 2m" |
| ProgressBars.Percentage | components/src/main/kotlin/com/cartobucket/picocli/components/ProgressBar.kt:181 | 0 without a total; between 0 and 100 for progress within the total; 100 at the total |
| ProgressBars.PercentText | components/src/main/kotlin/com/cartobucket/picocli/components/ProgressBar.kt:182 | the number right-aligned in three columns, then `%` |
| ProgressBars.PercentWidth | components/src/main/kotlin/com/cartobucket/picocli/components/ProgressBar.kt:182 | every percentage from 0 to 100 takes exactly four characters |
| ProgressBars.CountText | components/src/main/kotlin/com/cartobucket/picocli/components/ProgressBar.kt:187 | "current/total" |
| ProgressBars.SuffixParts | components/src/main/kotlin/com/cartobucket/picocli/components/ProgressBar.kt:176-214 | percentage and count only when enabled and determinate, then the timed parts, then the message when non-empty, in that order |
| ProgressBars.FourPartLayout | components/src/main/kotlin/com/cartobucket/picocli/components/ProgressBar.kt:176-214 | the four groups of suffix parts (percentage, count, timed parts, message) are laid out in that order: each part of a group sits at its offset in the joined list |
| ProgressBars.Line | components/src/main/kotlin/com/cartobucket/picocli/components/ProgressBar.kt:160-170 | the label and a space when there is a label, then the bar, then a space and the suffix when there is a suffix |
| ProgressBars.LineFillsTerminal | components/src/main/kotlin/com/cartobucket/picocli/components/ProgressBar.kt:135-171 | with a label, a suffix and room for ten cells, a determinate line with one-character glyphs is exactly as wide as the terminal |
| ProgressBars.ProgressBar.constructor | components/src/main/kotlin/com/cartobucket/picocli/components/ProgressBar.kt:10-44 | keeps every setting, starts at 0, open, and renders the first line |
| ProgressBars.ProgressBar.RenderNow | components/src/main/kotlin/com/cartobucket/picocli/components/ProgressBar.kt:115-130 | a closed bar renders nothing; otherwise an indeterminate bar advances its frame and the current line is rendered |
| ProgressBars.ProgressBar.MaybeRender | components/src/main/kotlin/com/cartobucket/picocli/components/ProgressBar.kt:105-110 | renders only when the interval has elapsed |
| ProgressBars.ProgressBar.Step | components/src/main/kotlin/com/cartobucket/picocli/components/ProgressBar.kt:56-62 | no-op when closed; otherwise `current := min(current+amount, total)` with no lower bound, and when due the spinner advances (indeterminate bars) and the new line is rendered |
| ProgressBars.ProgressBar.StepTo | components/src/main/kotlin/com/cartobucket/picocli/components/ProgressBar.kt:67-73 | no-op when closed; otherwise current is the value clamped to `[0, total]` and, when due, the spinner advances and the new line is rendered; a negative total makes the clamp fail |
| ProgressBars.ProgressBar.Message | components/src/main/kotlin/com/cartobucket/picocli/components/ProgressBar.kt:78-84 | no-op when closed; otherwise the message is replaced and, when due, the spinner advances and the new line is rendered |
| ProgressBars.ProgressBar.Finish | components/src/main/kotlin/com/cartobucket/picocli/components/ProgressBar.kt:89-100 | no-op when closed; otherwise a determinate bar is completed (100 percent), the spinner of an indeterminate bar advances, the line of that final state is rendered and the bar closes |
| ProgressBars.ProgressBar.Close | components/src/main/kotlin/com/cartobucket/picocli/components/ProgressBar.kt:220-222 | same as finish (the final line, the spinner advance), so closing twice changes nothing the second time |
| Spinners.SpinnerLine | components/src/main/kotlin/com/cartobucket/picocli/components/spinner/Spinner.kt:111-125 | the frame's glyph, then the label and the message each after a space when non-empty |
| Spinners.SpinnerCycles | components/src/main/kotlin/com/cartobucket/picocli/components/spinner/Spinner.kt:112 | the animation repeats after as many frames as the style has |
| Spinners.Spinner.constructor | components/src/main/kotlin/com/cartobucket/picocli/components/spinner/Spinner.kt:11-34 | keeps the settings, is open, and renders frame 1 |
| Spinners.Spinner.RenderNow | components/src/main/kotlin/com/cartobucket/picocli/components/spinner/Spinner.kt:93-106 | a closed spinner renders nothing; otherwise the frame advances and its line is rendered |
| Spinners.Spinner.Message | components/src/main/kotlin/com/cartobucket/picocli/components/spinner/Spinner.kt:46-52 | no-op when closed; otherwise replaces the message and renders when due |
| Spinners.Spinner.Update | components/src/main/kotlin/com/cartobucket/picocli/components/spinner/Spinner.kt:57-62 | no-op when closed; otherwise renders the next frame when due |
| Spinners.Spinner.Finish | components/src/main/kotlin/com/cartobucket/picocli/components/spinner/Spinner.kt:67-78 | no-op when closed; otherwise a non-empty final message replaces the message, one last frame is rendered and the spinner closes |
| Spinners.Spinner.Close | components/src/main/kotlin/com/cartobucket/picocli/components/spinner/Spinner.kt:137-139 | finish with an empty message: keeps the message, and a second close changes nothing |
| TableBuilders.TableBuilder.constructor | components/src/main/kotlin/com/cartobucket/picocli/components/table/TableBuilder.kt:9-13 | no columns, Unicode style, no fixed width, truncation on |
| TableBuilders.TableBuilder.AddColumn | components/src/main/kotlin/com/cartobucket/picocli/components/table/TableBuilder.kt:18-34 | appends the column in call order and returns the same builder |
| TableBuilders.TableBuilder.AddSimpleColumn | components/src/main/kotlin/com/cartobucket/picocli/components/table/TableBuilder.kt:39-41 | appends an auto-width, left-aligned, truncating column |
| TableBuilders.TableBuilder.WithStyle | components/src/main/kotlin/com/cartobucket/picocli/components/table/TableBuilder.kt:46-48 | sets the style |
| TableBuilders.TableBuilder.WithWidth | components/src/main/kotlin/com/cartobucket/picocli/components/table/TableBuilder.kt:53-55 | sets the fixed width |
| TableBuilders.TableBuilder.WithTruncateOverflow | components/src/main/kotlin/com/cartobucket/picocli/components/table/TableBuilder.kt:67-69 | sets the truncation flag |
| TableBuilders.TableBuilder.Build | components/src/main/kotlin/com/cartobucket/picocli/components/table/TableBuilder.kt:74-85 | fails exactly without columns; otherwise forwards data, columns, style, width and flag |
| TableBuilders.TableBuilder.RenderData | components/src/main/kotlin/com/cartobucket/picocli/components/table/TableBuilder.kt:90-94 | fails exactly without columns; otherwise renders the built table's lines |
| TableBuilders.TwoColumnExample | components/src/main/kotlin/com/cartobucket/picocli/components/table/TableBuilder.kt:18-41 | columns added in order appear in that order with their settings |
| VirtualTableBuilders.VirtualTableBuilder.constructor | components/src/main/kotlin/com/cartobucket/picocli/components/table/VirtualTableBuilder.kt:9-14 | no columns, no source, default style, height 10, no callback |
| VirtualTableBuilders.VirtualTableBuilder.AddColumn | components/src/main/kotlin/com/cartobucket/picocli/components/table/VirtualTableBuilder.kt:19-35 | appends the column in call order |
| VirtualTableBuilders.VirtualTableBuilder.AddSimpleColumn | components/src/main/kotlin/com/cartobucket/picocli/components/table/VirtualTableBuilder.kt:40-42 | appends an auto-width, left-aligned, truncating column |
| VirtualTableBuilders.VirtualTableBuilder.WithData | components/src/main/kotlin/com/cartobucket/picocli/components/table/VirtualTableBuilder.kt:47-49 | installs an in-memory source over the list |
| VirtualTableBuilders.VirtualTableBuilder.WithDataSource | components/src/main/kotlin/com/cartobucket/picocli/components/table/VirtualTableBuilder.kt:54-56 | installs the given source |
| VirtualTableBuilders.VirtualTableBuilder.WithStyle | components/src/main/kotlin/com/cartobucket/picocli/components/table/VirtualTableBuilder.kt:61-63 | sets the style |
| VirtualTableBuilders.VirtualTableBuilder.WithHeight | components/src/main/kotlin/com/cartobucket/picocli/components/table/VirtualTableBuilder.kt:68-71 | rejects a height that is not positive and keeps the old one, so the height stays positive |
| VirtualTableBuilders.VirtualTableBuilder.OnSelect | components/src/main/kotlin/com/cartobucket/picocli/components/table/VirtualTableBuilder.kt:83-85 | installs the callback |
| VirtualTableBuilders.VirtualTableBuilder.Build | components/src/main/kotlin/com/cartobucket/picocli/components/table/VirtualTableBuilder.kt:90-102 | fails without columns, then without a source; otherwise a new table over the source's rows with the columns, style and height, in a valid state |
| VirtualTableBuilders.LastSourceWins | components/src/main/kotlin/com/cartobucket/picocli/components/table/VirtualTableBuilder.kt:47-56 | of `withData` and `withDataSource` the last call wins |
| ProgressBarBuilders.ProgressBarBuilder.constructor | components/src/main/kotlin/com/cartobucket/picocli/components/ProgressBarBuilder.kt:9-20 | total 100, no label, auto width, Unicode, determinate, percentage and count on, rate and ETA off, unit "items", 100 ms |
| ProgressBarBuilders.ProgressBarBuilder.WithTotal | components/src/main/kotlin/com/cartobucket/picocli/components/ProgressBarBuilder.kt:25-28 | sets the total and makes the bar determinate |
| ProgressBarBuilders.ProgressBarBuilder.WithLabel | components/src/main/kotlin/com/cartobucket/picocli/components/ProgressBarBuilder.kt:33-35 | sets the label |
| ProgressBarBuilders.ProgressBarBuilder.WithWidth | components/src/main/kotlin/com/cartobucket/picocli/components/ProgressBarBuilder.kt:40-42 | sets the fixed width |
| ProgressBarBuilders.ProgressBarBuilder.WithStyle | components/src/main/kotlin/com/cartobucket/picocli/components/ProgressBarBuilder.kt:47-49 | sets the style |
| ProgressBarBuilders.ProgressBarBuilder.Indeterminate | components/src/main/kotlin/com/cartobucket/picocli/components/ProgressBarBuilder.kt:54-56 | makes the bar indeterminate |
| ProgressBarBuilders.ProgressBarBuilder.ShowRate | components/src/main/kotlin/com/cartobucket/picocli/components/ProgressBarBuilder.kt:61-63 | can only switch the rate on |
| ProgressBarBuilders.ProgressBarBuilder.ShowEta | components/src/main/kotlin/com/cartobucket/picocli/components/ProgressBarBuilder.kt:68-70 | can only switch the ETA on |
| ProgressBarBuilders.ProgressBarBuilder.ShowPercentage | components/src/main/kotlin/com/cartobucket/picocli/components/ProgressBarBuilder.kt:75-77 | sets the percentage flag either way |
| ProgressBarBuilders.ProgressBarBuilder.ShowCount | components/src/main/kotlin/com/cartobucket/picocli/components/ProgressBarBuilder.kt:82-84 | sets the count flag either way |
| ProgressBarBuilders.ProgressBarBuilder.WithUnit | components/src/main/kotlin/com/cartobucket/picocli/components/ProgressBarBuilder.kt:89-91 | sets the unit |
| ProgressBarBuilders.ProgressBarBuilder.WithUpdateInterval | components/src/main/kotlin/com/cartobucket/picocli/components/ProgressBarBuilder.kt:103-105 | sets the interval |
| ProgressBarBuilders.ProgressBarBuilder.Build | components/src/main/kotlin/com/cartobucket/picocli/components/ProgressBarBuilder.kt:110-125 | forwards every setting unchanged; the bar starts at 0 with one line rendered |
| ProgressBarBuilders.LastModeWins | components/src/main/kotlin/com/cartobucket/picocli/components/ProgressBarBuilder.kt:25-56 | of `withTotal` and `indeterminate()` the last call wins |
| SpinnerBuilders.SpinnerBuilder.constructor | components/src/main/kotlin/com/cartobucket/picocli/components/spinner/SpinnerBuilder.kt:9-12 | no label, braille style, no interval override |
| SpinnerBuilders.SpinnerBuilder.WithLabel | components/src/main/kotlin/com/cartobucket/picocli/components/spinner/SpinnerBuilder.kt:17-20 | sets the label and returns the same builder |
| SpinnerBuilders.SpinnerBuilder.WithStyle | components/src/main/kotlin/com/cartobucket/picocli/components/spinner/SpinnerBuilder.kt:25-28 | sets the style and returns the same builder |
| SpinnerBuilders.SpinnerBuilder.WithUpdateInterval | components/src/main/kotlin/com/cartobucket/picocli/components/spinner/SpinnerBuilder.kt:41-44 | sets the interval override and returns the same builder |
| SpinnerBuilders.SpinnerBuilder.Interval | components/src/main/kotlin/com/cartobucket/picocli/components/spinner/SpinnerBuilder.kt:50 | the explicit interval if set, else the style's |
| SpinnerBuilders.SpinnerBuilder.Build | components/src/main/kotlin/com/cartobucket/picocli/components/spinner/SpinnerBuilder.kt:49-57 | label and style unchanged, the interval as above |
| SpinnerBuilders.IntervalFallback | components/src/main/kotlin/com/cartobucket/picocli/components/spinner/SpinnerBuilder.kt:9-12 | a default spinner ticks every 80 ms; an explicit interval overrides the style's |

## Left out

- Terminal and process I/O is left out:
  - JLine terminal setup, attribute save/restore, the input thread and shutdown hook;
  - `tput` (its output is a parameter);
  - printing, cursor hiding and screen clearing (frames and lines are collected instead).
- Concurrency is left out: the locks, `@Volatile` flags and `Thread.sleep` of `VirtualTable`, `ProgressBar` and `Spinner`. `VirtualTable.start` is modelled as a running check plus a first render, one loop pass (`Tick`) and a sequential key loop (`Run`).
- The wall clock is left out. Whether the update interval has elapsed is the `due` parameter.
- The rate and ETA suffix parts are left out. They need the clock and floating point (`formatRate`), and they enter the suffix as already-formatted `timed` strings.
- ProgressRendering.FilledWidth: computed with exact integer arithmetic, so any rounding of the source's `Double` ratio is not modelled.
- Tables.ShrunkWidth: the proportional shrink uses exact integers, not the source's `Double` ratio.
- Integer widths are not modelled: Kotlin `Int` and `Long` overflow, for example in `current * 100` or `frame++`.
- Display width is not modelled. String length counts characters, so wide glyphs, emoji and escape sequences are not measured as the terminal shows them.
- Column accessors return the cell text directly: a null value, `toString()` and arbitrary `Any?` results are folded into that text.
- VirtualTables.VirtualTable.constructor: the data source is the list of rows it serves. The lazy source's equivalence to the in-memory one is proved separately (`GetAgrees`, `GetRangeAgrees`).
- VirtualTableBuilders.VirtualTableBuilder.WithDataSource: accepts an in-memory source only, for the same reason.
- VirtualTableRendering.VirtualTableRenderer.RowCells: uses the corrected truncation (`Cells.Ellipsize`), and so do `RowCell` and `BuildFrame`. For a truncating column with a fixed width of 0, 1 or 2 and a longer value, the source throws; the model draws the cut ellipsis instead (see Findings).
- KeyEvents.ToIntOrNull: accepts ASCII digits only. The JVM's `toIntOrNull` also accepts other Unicode decimal digits, so bytes `1B 5B EF BC 93 7E` (a full-width 3) give Delete in the source and Unknown in the model.
- Styles.TableStyle: `padding` is a `nat`. A negative padding makes the source's `" ".repeat` throw, and the model does not represent that crash.
- VirtualTables.VirtualTable.Loop: the newest frame is related to the final state through the recorded view `shown`, which `RenderFrame` sets together with the frame it appends; the frame string itself is stated by `RenderFrame`, `Start` and `Tick`.
- `onSelect` callbacks are represented by the rows handed to them, and `output` streams are not modelled.
- VirtualTableRendering.NewRenderer: a negative fixed column width makes the source's `repeat` and `take` throw. Such columns are excluded by the renderer's validity condition rather than modelled as a crash.
- ProgressRendering.BuildBar: takes a non-negative bar width. `calculateBarWidth` never returns less than 10, and a negative width makes the source's `coerceIn` throw.
- ProgressRendering.BuildIndeterminateBar: an empty glyph list makes the source divide by zero. The model requires at least one glyph, and so do Spinners.Spinner.constructor for its frames and ProgressBars.ProgressBar.constructor for an indeterminate bar.
- The style data classes are reduced to datatypes and the presets the model uses: `TableStyle.kt`, `ProgressBarStyle.kt` and `SpinnerStyle.kt` (only BRAILLE, LINE and CIRCLE among the spinner presets).
- `getElapsedSeconds` and `formatRate` are not modelled (clock and floating point).

## Findings

| source | as written | input that shows it | evidently intended | confidence | as-written member | corrected member |
|---|---|---|---|---|---|---|
| components/src/main/kotlin/com/cartobucket/picocli/components/table/VirtualTableRenderer.kt:185-187 | a long value in a truncating column is cut with `take(width - 3)`, which throws for a fixed column width of 0, 1 or 2 | column with fixed width 2, value "abc" | cut to `max(0, width - 3)` characters plus the ellipsis, then cut to the width by `padCell` (`Table.kt` never meets this case, because its widths are at least 3) | not executed | Cells.EllipsizeAsWritten | Cells.Ellipsize |

Two behaviours of the source worth noting (the model follows them):
- The cursor starts at row 0 even when there are no rows.
- `start` may be called again after `stop`.
