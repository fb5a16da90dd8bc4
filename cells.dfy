/** Cell and line building shared by `Table` and `VirtualTableRenderer`
    (components/.../table/Table.kt and VirtualTableRenderer.kt): column
    definitions, `padCell`, ellipsis truncation, border lines and the
    bar-separated rows. Cell values are taken as already-converted strings. */
module Cells {
  import opened Wrappers
  import opened Text

  datatype Alignment = Left | Center | Right

  /** `Table.Column`: the accessor gives the cell text of a row (a null value
      and its `toString()` are folded into the string it returns). */
  datatype Column<!T> = Column(
    header: string,
    accessor: T -> string,
    width: Option<int>,
    align: Alignment,
    truncate: bool)

  /** The text ellipsis. */
  const ELLIPSIS: string := "..."
  const MIN_COLUMN_WIDTH: int := 3

  /** Kotlin `take(n)` for n >= 0. */
  function Take(s: string, n: nat): (r: string)
    ensures |r| == Min(n, |s|) && r == s[..|r|]
  {
    if |s| > n then s[..n] else s
  }

  /** Where `padCell` puts the content inside the `width` field, given how
      many spaces `total` the content leaves free. */
  function Lead(align: Alignment, total: nat): (lead: nat)
    ensures lead <= total
    ensures align == Center ==> lead <= total - lead <= lead + 1
  {
    match align
    case Left => 0
    case Right => total
    case Center => total / 2
  }

  /** `padCell`: the content cut to `width`, placed by the alignment in a
      field of `width` spaces, between two runs of `padding` spaces.
      (`take` and `repeat` throw for a negative width.) */
  function PadCell(content: string, width: nat, align: Alignment, padding: nat): (r: string)
    ensures |r| == width + 2 * padding
  {
    var shown := Take(content, width);
    var total := width - |shown|;
    var pad := Spaces(padding);
    match align
    case Left => pad + shown + Spaces(total) + pad
    case Right => pad + Spaces(total) + shown + pad
    case Center => pad + Spaces(total / 2) + shown + Spaces(total - total / 2) + pad
  }

  /** The padded cell holds the content cut to `width`, starting `padding`
      plus the alignment's lead characters in, and spaces everywhere else. */
  lemma PadCellShape(content: string, width: nat, align: Alignment, padding: nat)
    ensures var r := PadCell(content, width, align, padding);
            var shown := Take(content, width);
            var at := padding + Lead(align, width - |shown|);
            r[at..at + |shown|] == shown &&
            (forall i :: 0 <= i < |r| && !(at <= i < at + |shown|) ==> r[i] == ' ')
  {
  }

  /** LEFT puts the content right after the leading padding and RIGHT right
      before the trailing padding; CENTER gives the odd space to the right. */
  lemma PadCellPlacement(content: string, width: nat, padding: nat)
    requires |content| <= width
    ensures PadCell(content, width, Left, padding)[padding..padding + |content|] == content
    ensures PadCell(content, width, Right, padding)[padding + width - |content|..padding + width] == content
    ensures var c := PadCell(content, width, Center, padding);
            var lead := (width - |content|) / 2;
            c[padding + lead..padding + lead + |content|] == content &&
            (width - |content|) - lead == lead + (width - |content|) % 2
  {
    assert Take(content, width) == content;
    PadCellShape(content, width, Left, padding);
    PadCellShape(content, width, Right, padding);
    PadCellShape(content, width, Center, padding);
  }

  /** The cell text of a value, ellipsised when the column truncates and the
      value is too long, as intended: `take(max(0, width - 3)) + "..."`. */
  function Ellipsize(value: string, width: nat, truncate: bool): (r: string)
    ensures !(truncate && |value| > width) ==> r == value
    ensures truncate && |value| > width && width >= 3 ==>
      |r| == width && r[..width - 3] == value[..width - 3] && r[width - 3..] == ELLIPSIS
  {
    if truncate && |value| > width then Take(value, Max(0, width - 3)) + ELLIPSIS else value
  }

  /** The failure of the truncation as written. */
  datatype CellError = NegativeTake(count: int)

  /** The truncation as written in VirtualTableRenderer.kt: `take(width - 3)`,
      which throws when the width is below 3. */
  function EllipsizeAsWritten(value: string, width: nat, truncate: bool): (r: Result<string, CellError>)
    ensures r.Failure? <==> truncate && |value| > width && width < 3
    ensures r.Success? ==> r.value == Ellipsize(value, width, truncate)
  {
    if truncate && |value| > width then
      if width - 3 < 0 then Failure(NegativeTake(width - 3))
      else Success(Take(value, width - 3) + ELLIPSIS)
    else Success(value)
  }

  /** A column with a fixed width of 2 and a three-character value: the
      code as written throws, while the intended cell is two dots. */
  lemma NarrowColumnCrash()
    ensures EllipsizeAsWritten("abc", 2, true) == Failure(NegativeTake(-1))
    ensures PadCell(Ellipsize("abc", 2, true), 2, Left, 1) == " .. "
  {
    assert Ellipsize("abc", 2, true) == "...";
    assert Take("...", 2) == "..";
  }

  /** With the intended truncation every width >= 0 yields a cell of exactly
      `width + 2 * padding` characters whose text is the value's start. */
  lemma EllipsizedCellFits(value: string, width: nat, padding: nat, align: Alignment)
    requires |value| > width
    ensures |PadCell(Ellipsize(value, width, true), width, align, padding)| == width + 2 * padding
    ensures width >= 3 ==> Take(Ellipsize(value, width, true), width) == Ellipsize(value, width, true)
    ensures Take(Ellipsize(value, width, true), width)[..Min(width, Max(0, width - 3))] == value[..Min(width, Max(0, width - 3))]
  {
  }

  // ---------------------------------------------------------------------------
  // Lines

  /** One horizontal segment per column: `width + 2 * padding` glyphs. */
  function Segments(horizontal: string, widths: seq<int>, padding: nat): (segs: seq<string>)
    ensures |segs| == |widths|
    ensures forall i :: 0 <= i < |widths| ==> segs[i] == Repeat(horizontal, widths[i] + 2 * padding)
  {
    seq(|widths|, i requires 0 <= i < |widths| => Repeat(horizontal, widths[i] + 2 * padding))
  }

  /** A border line: the left glyph, the segments with a cross between
      neighbours, the right glyph. */
  function BorderLine(left: string, horizontal: string, cross: string, right: string,
                      widths: seq<int>, padding: nat): string
  {
    left + JoinWith(Segments(horizontal, widths, padding), cross) + right
  }

  /** A header, data or blank row: a bar between adjacent cells, and a
      leading and a trailing bar only when borders are shown. */
  function RowLine(showBorders: bool, vertical: string, cells: seq<string>): string
  {
    (if showBorders then vertical else []) + JoinWith(cells, vertical) +
    (if showBorders && |cells| > 0 then vertical else [])
  }

  lemma JoinStep(parts: seq<string>, sep: string, i: nat)
    requires 0 < i < |parts|
    ensures JoinWith(parts[..i + 1], sep) == JoinWith(parts[..i], sep) + sep + parts[i]
  {
    assert parts[..i + 1][..i] == parts[..i];
  }

  /** One loop step of the border and row builders: the separator left
      pending after the previous part, then the next part, extend the join. */
  lemma ExtendJoin(head: string, parts: seq<string>, sep: string, pending: string, i: nat)
    requires i < |parts|
    requires pending == (if i == 0 then [] else sep)
    ensures head + JoinWith(parts[..i], sep) + pending + parts[i] == head + JoinWith(parts[..i + 1], sep)
  {
    if i == 0 {
      assert parts[..1] == [parts[0]];
    } else {
      JoinStep(parts, sep, i);
      assert head + JoinWith(parts[..i], sep) + pending + parts[i]
          == head + (JoinWith(parts[..i], sep) + sep + parts[i]);
    }
  }

  /** The render*Border loop: `repeat(width + 2 * padding)` horizontals per
      column, the cross after every column but the last. */
  method BuildBorder(left: string, horizontal: string, cross: string, right: string,
                     widths: seq<int>, padding: nat) returns (line: string)
    ensures line == BorderLine(left, horizontal, cross, right, widths, padding)
  {
    var segs := Segments(horizontal, widths, padding);
    line := left;
    ghost var pending: string := [];
    var i := 0;
    while i < |widths|
      invariant 0 <= i <= |widths|
      invariant pending == (if 0 < i < |widths| then cross else [])
      invariant line == left + JoinWith(segs[..i], cross) + pending
    {
      var seg := Repeat(horizontal, widths[i] + 2 * padding);
      assert seg == segs[i];
      ExtendJoin(left, segs, cross, pending, i);
      line := line + seg;
      if i < |widths| - 1 {
        line := line + cross;
        pending := cross;
      } else {
        pending := [];
      }
      i := i + 1;
    }
    assert segs[..|widths|] == segs;
    line := line + right;
  }

  /** The render*Row loop: each cell, then a bar when another column follows
      or, after the last one, when borders are shown. */
  method BuildRow(showBorders: bool, vertical: string, cells: seq<string>) returns (line: string)
    ensures line == RowLine(showBorders, vertical, cells)
  {
    var head: string := if showBorders then vertical else [];
    line := head;
    ghost var pending: string := [];
    var i := 0;
    while i < |cells|
      invariant 0 <= i <= |cells|
      invariant pending == (if i == 0 then [] else if i < |cells| || showBorders then vertical else [])
      invariant line == head + JoinWith(cells[..i], vertical) + pending
    {
      ExtendJoin(head, cells, vertical, pending, i);
      line := line + cells[i];
      if i < |cells| - 1 {
        line := line + vertical;
        pending := vertical;
      } else if showBorders {
        line := line + vertical;
        pending := vertical;
      } else {
        pending := [];
      }
      i := i + 1;
    }
    assert cells[..|cells|] == cells;
  }

  function SumLengths(parts: seq<string>): nat
  {
    if parts == [] then 0 else SumLengths(parts[..|parts| - 1]) + |parts[|parts| - 1]|
  }

  lemma {:induction false} JoinLength(parts: seq<string>, sep: string)
    requires |parts| > 0
    ensures |JoinWith(parts, sep)| == SumLengths(parts) + (|parts| - 1) * |sep|
    decreases |parts|
  {
    if |parts| > 1 {
      JoinLength(parts[..|parts| - 1], sep);
    } else {
      assert parts[..0] == [];
    }
  }

  /** Bars line up with crosses: with one-character glyphs and every cell as
      wide as its column plus padding, a bordered row is exactly as long as
      a border line. */
  lemma {:induction false} RowMatchesBorder(glyph: string, horizontal: string, widths: seq<int>,
                                            padding: nat, cells: seq<string>)
    requires |glyph| == 1 && |horizontal| == 1 && |widths| > 0 && |cells| == |widths|
    requires forall i :: 0 <= i < |widths| ==> widths[i] >= 0 && |cells[i]| == widths[i] + 2 * padding
    ensures |RowLine(true, glyph, cells)| == |BorderLine(glyph, horizontal, glyph, glyph, widths, padding)|
  {
    var segs := Segments(horizontal, widths, padding);
    forall i | 0 <= i < |widths|
      ensures |segs[i]| == |cells[i]|
    {
      RepeatLength(horizontal, widths[i] + 2 * padding);
    }
    SameLengths(segs, cells);
    JoinLength(segs, glyph);
    JoinLength(cells, glyph);
  }

  lemma {:induction false} SameLengths(a: seq<string>, b: seq<string>)
    requires |a| == |b| && forall i :: 0 <= i < |a| ==> |a[i]| == |b[i]|
    ensures SumLengths(a) == SumLengths(b)
    decreases |a|
  {
    if a != [] {
      SameLengths(a[..|a| - 1], b[..|b| - 1]);
    }
  }
}
