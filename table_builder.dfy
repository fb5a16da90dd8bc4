/** The fluent builder of components/.../table/TableBuilder.kt. */
module TableBuilders {
  import opened Wrappers
  import opened Cells
  import opened Styles
  import opened Tables

  datatype BuildError = NoColumns

  class TableBuilder<T> {
    var columns: seq<Column<T>>
    var style: TableStyle
    var width: Option<int>
    var truncateOverflow: bool

    /** Defaults: no columns, the Unicode style, no fixed width, truncation on. */
    constructor ()
      ensures columns == [] && style == UNICODE_TABLE && width == None && truncateOverflow
    {
      columns := [];
      style := UNICODE_TABLE;
      width := None;
      truncateOverflow := true;
    }

    /** `addColumn(header, width, align, truncate, accessor)` appends a column. */
    method AddColumn(header: string, width: Option<int>, align: Alignment, truncate: bool, accessor: T -> string)
      returns (b: TableBuilder<T>)
      modifies this`columns
      ensures b == this
      ensures columns == old(columns) + [Column(header, accessor, width, align, truncate)]
    {
      columns := columns + [Column(header, accessor, width, align, truncate)];
      b := this;
    }

    /** `addColumn(header, accessor)`: auto width, left-aligned, truncating. */
    method AddSimpleColumn(header: string, accessor: T -> string) returns (b: TableBuilder<T>)
      modifies this`columns
      ensures b == this
      ensures columns == old(columns) + [Column(header, accessor, None, Left, true)]
    {
      b := AddColumn(header, None, Left, true, accessor);
    }

    method WithStyle(style: TableStyle) returns (b: TableBuilder<T>)
      modifies this`style
      ensures b == this && this.style == style
    {
      this.style := style;
      b := this;
    }

    method WithWidth(width: Option<int>) returns (b: TableBuilder<T>)
      modifies this`width
      ensures b == this && this.width == width
    {
      this.width := width;
      b := this;
    }

    method WithTruncateOverflow(truncate: bool) returns (b: TableBuilder<T>)
      modifies this`truncateOverflow
      ensures b == this && truncateOverflow == truncate
    {
      truncateOverflow := truncate;
      b := this;
    }

    /** `build(data)`: fails without columns; otherwise the table gets the
        columns so far, the style, the width as its fixed width and the
        truncation flag. */
    function Build(data: seq<T>): (r: Result<Table<T>, BuildError>)
      reads this
      ensures r.Failure? <==> columns == []
      ensures r.Success? ==> r.value.data == data && r.value.columns == columns && r.value.style == style
      ensures r.Success? ==> r.value.fixedWidth == width && r.value.truncateOverflow == truncateOverflow
    {
      if columns == [] then Failure(NoColumns)
      else Success(Table(data, columns, style, width, truncateOverflow))
    }

    /** `render(data)`: builds the table and renders it. */
    method RenderData(data: seq<T>, terminalWidth: int) returns (r: Result<seq<string>, BuildError>)
      ensures r.Failure? <==> columns == []
      ensures r.Success? ==> r.value == Build(data).value.Lines(terminalWidth)
    {
      var table := Build(data);
      if table.Failure? {
        return Failure(table.error);
      }
      var lines := table.value.Render(terminalWidth);
      r := Success(lines);
    }
  }

  /** Two columns added in order appear in that order, and a builder with
      columns always builds. */
  method TwoColumnExample<T>(first: T -> string, second: T -> string, data: seq<T>) returns (t: Result<Table<T>, BuildError>)
    ensures t.Success? && |t.value.columns| == 2
    ensures t.value.columns[0].header == "Name" && t.value.columns[1].header == "Size"
    ensures t.value.columns[1].width == Some(8) && t.value.columns[1].align == Right
  {
    var builder := new TableBuilder<T>();
    var _ := builder.AddSimpleColumn("Name", first);
    var _ := builder.AddColumn("Size", Some(8), Right, true, second);
    t := builder.Build(data);
  }
}
