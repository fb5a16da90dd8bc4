/** The fluent builder of components/.../table/VirtualTableBuilder.kt. A data
    source is represented by the rows it serves. */
module VirtualTableBuilders {
  import opened Wrappers
  import opened Cells
  import opened Styles
  import opened DataSources
  import TableState
  import opened VirtualTableRendering
  import opened VirtualTables

  datatype BuildError = NonPositiveHeight(height: int) | NoColumns | NoDataSource

  class VirtualTableBuilder<T> {
    var columns: seq<Column<T>>
    var dataSource: Option<InMemoryDataSource<T>>
    var style: VirtualTableStyle
    var height: int
    var hasOnSelect: bool

    /** The height is always positive. */
    predicate Valid()
      reads this
    {
      height > 0
    }

    /** Defaults: no columns, no data source, the default style, 10 visible rows, no callback. */
    constructor ()
      ensures Valid()
      ensures columns == [] && dataSource == None && style == DEFAULT_STYLE && height == 10 && !hasOnSelect
    {
      columns := [];
      dataSource := None;
      style := DEFAULT_STYLE;
      height := 10;
      hasOnSelect := false;
    }

    method AddColumn(header: string, width: Option<int>, align: Alignment, truncate: bool, accessor: T -> string)
      returns (b: VirtualTableBuilder<T>)
      modifies this`columns
      ensures b == this
      ensures columns == old(columns) + [Column(header, accessor, width, align, truncate)]
    {
      columns := columns + [Column(header, accessor, width, align, truncate)];
      b := this;
    }

    /** `addColumn(header, accessor)`: auto width, left-aligned, truncating. */
    method AddSimpleColumn(header: string, accessor: T -> string) returns (b: VirtualTableBuilder<T>)
      modifies this`columns
      ensures b == this
      ensures columns == old(columns) + [Column(header, accessor, None, Left, true)]
    {
      b := AddColumn(header, None, Left, true, accessor);
    }

    /** `withData(list)` installs an in-memory source over the list. */
    method WithData(data: seq<T>) returns (b: VirtualTableBuilder<T>)
      modifies this`dataSource
      ensures b == this && dataSource == Some(InMemoryDataSource(data))
    {
      dataSource := Some(InMemoryDataSource(data));
      b := this;
    }

    method WithDataSource(source: InMemoryDataSource<T>) returns (b: VirtualTableBuilder<T>)
      modifies this`dataSource
      ensures b == this && dataSource == Some(source)
    {
      dataSource := Some(source);
      b := this;
    }

    method WithStyle(style: VirtualTableStyle) returns (b: VirtualTableBuilder<T>)
      modifies this`style
      ensures b == this && this.style == style
    {
      this.style := style;
      b := this;
    }

    /** `withHeight(h)` rejects a height that is not positive and keeps the old one. */
    method WithHeight(h: int) returns (r: Result<VirtualTableBuilder<T>, BuildError>)
      requires Valid()
      modifies this`height
      ensures Valid()
      ensures r.Failure? <==> h <= 0
      ensures r.Success? ==> r.value == this && height == h
      ensures r.Failure? ==> height == old(height)
    {
      if h <= 0 {
        return Failure(NonPositiveHeight(h));
      }
      height := h;
      r := Success(this);
    }

    method OnSelect() returns (b: VirtualTableBuilder<T>)
      modifies this`hasOnSelect
      ensures b == this && hasOnSelect
    {
      hasOnSelect := true;
      b := this;
    }

    /** `build()`: needs a column and then a data source; the table gets a
        copy of the columns, the source's rows, the style and the height. */
    method Build(terminalWidth: int) returns (r: Result<VirtualTable<T>, BuildError>)
      requires Valid()
      ensures r.Failure? <==> columns == [] || dataSource.None?
      ensures columns == [] ==> r == Failure(NoColumns)
      ensures columns != [] && dataSource.None? ==> r == Failure(NoDataSource)
      ensures r.Success? ==> fresh(r.value) && fresh(r.value.state)
      ensures r.Success? ==> r.value.state.rows == dataSource.value.data && r.value.state.visibleHeight == height
      ensures r.Success? ==> r.value.renderer == NewRenderer(columns, style, terminalWidth)
      ensures r.Success? ==> r.value.hasOnSelect == hasOnSelect && !r.value.running && r.value.needsRender
      ensures r.Success? ==> r.value.state.Nav() == TableState.Initial(|dataSource.value.data|, height)
      ensures r.Success? && (forall i :: 0 <= i < |columns| && columns[i].width.Some? ==> columns[i].width.value >= 0) ==>
        r.value.Valid()
    {
      if columns == [] {
        return Failure(NoColumns);
      }
      if dataSource.None? {
        return Failure(NoDataSource);
      }
      var table := new VirtualTable(dataSource.value.data, columns, style, height, terminalWidth, hasOnSelect);
      r := Success(table);
    }
  }

  /** Of `withData` and `withDataSource` the last call wins. */
  method LastSourceWins<T>(first: seq<T>, second: InMemoryDataSource<T>) returns (b: VirtualTableBuilder<T>)
    ensures b.dataSource == Some(second)
  {
    b := new VirtualTableBuilder<T>();
    var _ := b.WithData(first);
    var _ := b.WithDataSource(second);
  }
}
