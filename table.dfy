/**
 * The data table: which body rows it renders, what each cell shows, how a
 * header cell reacts to a click and labels its sort, when the footer is
 * shown, and how the pager's 0-based page index meets the list's 1-based one.
 */
module Table {
  import opened Wrappers
  import opened JsValues

  /** One column of the table's configuration. */
  datatype Column = Column(name: string, property: string, sort: bool, numeric: bool)

  datatype Align = Left | Right

  datatype SortDirection = Asc | Desc

  /** A body cell: a loading placeholder, the no-data notice spanning the
      row, or an item's value. */
  datatype Cell = Placeholder | Notice(text: string, colSpan: int) | Content(shown: Value, align: Align)

  datatype Row = Row(cells: seq<Cell>)

  /** The sort control of a sortable header cell. */
  datatype SortLabel = SortLabel(active: bool, direction: SortDirection, tooltip: string)

  datatype HeaderCell = HeaderCell(text: string, align: Align, sortLabel: Option<SortLabel>)

  /** The footer: the item summary and what the pager receives. */
  datatype Footer = Footer(summary: string, colSpan: int, count: int, pagerPage: int, rowsPerPage: int, options: seq<int>)

  const SkeletonRows: nat := 5
  const NoDataText: string := "No hay datos disponibles"
  const Dash: string := "-"
  const RowsPerPageOptions: seq<int> := [5, 10, 20, 50, 100]
  const SortDescendingHint: string := "Ordenar descendente"
  const SortAscendingHint: string := "Ordenar ascendente"

  function AlignOf(column: Column): Align
  {
    if column.numeric then Right else Left
  }

  /** A row of `n` loading placeholders. */
  function SkeletonRow(n: nat): Row
  {
    Row(seq(n, _ => Placeholder))
  }

  /** `item[column.property] || '-'`, aligned by the column. */
  function CellFor(item: Record, column: Column): Cell
  {
    Content(Or(Lookup(item, column.property), Str(Dash)), AlignOf(column))
  }

  function DataRow(item: Record, columns: seq<Column>): Row
  {
    Row(seq(|columns|, j requires 0 <= j < |columns| => CellFor(item, columns[j])))
  }

  /** `renderRows`: placeholders while loading, whatever the data; otherwise
      the notice when there are no items; otherwise one row per item. */
  function RenderRows(loading: bool, data: seq<Record>, columns: seq<Column>): (rows: seq<Row>)
    ensures loading ==> |rows| == SkeletonRows && forall i :: 0 <= i < |rows| ==> rows[i] == SkeletonRow(|columns|)
    ensures !loading && data == [] ==> rows == [Row([Notice(NoDataText, |columns|)])]
    ensures !loading && data != [] ==> |rows| == |data|
  {
    if loading then seq(SkeletonRows, _ => SkeletonRow(|columns|))
    else if |data| == 0 then [Row([Notice(NoDataText, |columns|)])]
    else seq(|data|, i requires 0 <= i < |data| => DataRow(data[i], columns))
  }

  /** A header click asks to sort by the column's property, and only a
      sortable column reacts. */
  function HeaderClick(column: Column): (r: Option<string>)
    ensures r.Some? <==> column.sort
    ensures r.Some? ==> r.value == column.property
  {
    if column.sort then Some(column.property) else None
  }

  /** A header cell: the column name, and for a sortable column a sort label
      that is active for the current sort column and points in the current
      direction, with a hint naming the opposite direction. */
  function Header(column: Column, sortBy: string, sortType: string): (h: HeaderCell)
    ensures h.text == column.name && h.align == AlignOf(column)
    ensures h.sortLabel.Some? <==> column.sort
    ensures h.sortLabel.Some? ==> (h.sortLabel.value.active <==> sortBy == column.property)
    ensures h.sortLabel.Some? ==> (h.sortLabel.value.direction == Asc <==> sortType == "asc")
    ensures h.sortLabel.Some? ==>
      h.sortLabel.value.tooltip == (if sortType == "asc" then SortDescendingHint else SortAscendingHint)
  {
    var sortLabel :=
      if column.sort then
        Some(SortLabel(sortBy == column.property,
                       if sortType == "asc" then Asc else Desc,
                       if sortType == "asc" then SortDescendingHint else SortAscendingHint))
      else None;
    HeaderCell(column.name, AlignOf(column), sortLabel)
  }

  /** The 0-based index the pager is given for the list's 1-based page. */
  function PagerPage(page: int): (index: int)
    ensures page >= 1 <==> index >= 0
  {
    page - 1
  }

  /** The 1-based page the list is asked for when the pager emits `newPage`. */
  function ChangePage(newPage: int): (page: int)
    ensures newPage >= 0 <==> page >= 1
  {
    newPage + 1
  }

  /** A rows-per-page choice: its value parsed as a decimal integer, and
      always back to page 1. */
  function RowsPerPageChange(value: string): (r: (Value, int))
    ensures IsNumber(r.0) && r.1 == 1
  {
    (ParseInt(value), 1)
  }

  function Summary(items: int): string
  {
    "Total: " + IntToString(items) + " items"
  }

  /** The footer, present exactly when there are items: its summary counts the
      items shown, while the pager counts `total`. */
  function FooterFor(data: seq<Record>, total: int, page: int, perPage: int, columns: seq<Column>): (f: Option<Footer>)
    ensures f.Some? <==> |data| > 0
    ensures f.Some? ==> f.value.summary == Summary(|data|) && f.value.count == total
    ensures f.Some? ==> f.value.pagerPage == PagerPage(page) && f.value.rowsPerPage == perPage
    ensures f.Some? ==> f.value.colSpan == |columns| && f.value.options == RowsPerPageOptions
  {
    if |data| > 0 then Some(Footer(Summary(|data|), |columns|, total, PagerPage(page), perPage, RowsPerPageOptions))
    else None
  }

  // ---------------------------------------------------------------------------
  // Lemmas

  /** Each item row has one cell per column, in column order; a cell shows the
      item's value when it is truthy and a dash otherwise (so 0 and the empty
      string also show a dash). */
  lemma CellsFollowColumns(data: seq<Record>, columns: seq<Column>, i: int, j: int)
    requires data != [] && 0 <= i < |data| && 0 <= j < |columns|
    ensures |RenderRows(false, data, columns)[i].cells| == |columns|
    ensures RenderRows(false, data, columns)[i].cells[j].Content?
    ensures RenderRows(false, data, columns)[i].cells[j].align == (if columns[j].numeric then Right else Left)
    ensures var v := Lookup(data[i], columns[j].property);
      RenderRows(false, data, columns)[i].cells[j].shown == (if Truthy(v) then v else Str("-"))
  {
    var row := RenderRows(false, data, columns)[i];
    assert row == DataRow(data[i], columns);
    assert row.cells[j] == CellFor(data[i], columns[j]);
  }

  /** Every rendered row spans all columns: a placeholder or item row has one
      cell per column, and the notice spans them all. */
  lemma RowsSpanColumns(loading: bool, data: seq<Record>, columns: seq<Column>)
    ensures forall r :: r in RenderRows(loading, data, columns) ==>
      |r.cells| == |columns| || r.cells == [Notice(NoDataText, |columns|)]
  {
    var rows := RenderRows(loading, data, columns);
    forall r | r in rows
      ensures |r.cells| == |columns| || r.cells == [Notice(NoDataText, |columns|)]
    {
      var i :| 0 <= i < |rows| && rows[i] == r;
      if !loading && data != [] {
        assert r == DataRow(data[i], columns);
      }
    }
  }

  /** While loading, the rows do not depend on the data at all. */
  lemma LoadingIgnoresData(d1: seq<Record>, d2: seq<Record>, columns: seq<Column>)
    ensures RenderRows(true, d1, columns) == RenderRows(true, d2, columns)
  {
  }

  /** The pager and the list agree on the page: going to the pager's index and
      back, or back and forth, changes nothing. */
  lemma PageRoundTrip(page: int, newPage: int)
    ensures ChangePage(PagerPage(page)) == page
    ensures PagerPage(ChangePage(newPage)) == newPage
  {
  }

  /** Choosing any of the offered sizes asks for exactly that many rows per page. */
  lemma RowsPerPageOptionsParse(n: int)
    requires n in RowsPerPageOptions
    ensures RowsPerPageChange(IntToString(n)) == (Num(n), 1)
  {
    ParseIntOfIntToString(n);
  }

  /** The footer summary counts the items shown and ignores `total`: it is the
      same for any two totals, and different item counts give different
      summaries. */
  lemma SummaryCountsItems(d1: seq<Record>, d2: seq<Record>, t1: int, t2: int, page: int, perPage: int, columns: seq<Column>)
    requires d1 != [] && d2 != []
    ensures FooterFor(d1, t1, page, perPage, columns).value.summary == FooterFor(d1, t2, page, perPage, columns).value.summary
    ensures FooterFor(d1, t1, page, perPage, columns).value.summary == FooterFor(d2, t2, page, perPage, columns).value.summary
      ==> |d1| == |d2|
  {
    if Summary(|d1|) == Summary(|d2|) {
      SummaryInjective(|d1|, |d2|);
    }
  }

  lemma SummaryInjective(a: int, b: int)
    requires Summary(a) == Summary(b)
    ensures a == b
  {
    var x := IntToString(a);
    var y := IntToString(b);
    var pre := "Total: ";
    var post := " items";
    assert |Summary(a)| == |pre| + |x| + |post|;
    assert |x| == |y|;
    assert Summary(a)[|pre|..|pre| + |x|] == x;
    assert Summary(b)[|pre|..|pre| + |y|] == y;
    ParseIntOfIntToString(a);
    ParseIntOfIntToString(b);
  }
}
