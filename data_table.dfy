/**
 * The generic table component as a pure view-model: from its props it derives the
 * search box, the header cells, the body rows and the pagination bar.
 */
module DataTable {
  import opened Wrappers

  const DefaultEmptyMessage := "Kayıt bulunamadı."
  const ActionsHeader := "İşlemler"

  /**
   * A column: its header, the raw field value the cell falls back to (`item[key]`),
   * and an optional renderer. `C` is the type of what a cell shows.
   */
  datatype Column<-T, C> = Column(header: string, field: T -> C, render: Option<T -> C>)

  datatype Pagination = Pagination(currentPage: int, totalPages: int)

  /** What the table does with `onPageChange` and `onSearchChange`. */
  datatype Event = PageChange(page: int) | SearchChange(query: string)

  datatype NavButton = NavButton(target: int, disabled: bool)
  datatype PageButton = PageButton(page: int, active: bool)
  datatype PaginationBar = PaginationBar(previous: NavButton, pages: seq<PageButton>, next: NavButton)

  datatype Row<C> =
    | SpinnerRow(colSpan: nat)
    | MessageRow(colSpan: nat, message: string)
    | ItemRow(cells: seq<C>, actions: Option<C>)

  /** `loading` and `searchable` absent read as false; `emptyMessage` absent takes the default. */
  datatype Props<!T, C> = Props(
    columns: seq<Column<T, C>>,
    data: seq<T>,
    loading: bool,
    searchable: bool,
    searchQuery: Option<string>,
    pagination: Option<Pagination>,
    emptyMessage: Option<string>,
    actions: Option<T -> C>)

  /** `columns.length + (actions ? 1 : 0)` */
  function ColSpan<T, C>(p: Props<T, C>): (n: nat)
    ensures p.actions.Some? ==> n == |p.columns| + 1
    ensures p.actions.None? ==> n == |p.columns|
  {
    |p.columns| + if p.actions.Some? then 1 else 0
  }

  /** A cell shows the column's renderer applied to the item when there is one, and the raw field otherwise. */
  function Cell<T, C>(col: Column<T, C>, item: T): (c: C)
    ensures col.render.Some? ==> c == col.render.value(item)
    ensures col.render.None? ==> c == col.field(item)
  {
    match col.render
    case Some(render) => render(item)
    case None => col.field(item)
  }

  /** One row of cells for an item, with the actions cell when `actions` is given. */
  function ItemRowOf<T, C>(columns: seq<Column<T, C>>, actions: Option<T -> C>, item: T): Row<C> {
    ItemRow(
      seq(|columns|, j requires 0 <= j < |columns| => Cell(columns[j], item)),
      if actions.Some? then Some(actions.value(item)) else None)
  }

  /** The header row: every column header in order, then 'İşlemler' when `actions` is given. */
  function Headers<T, C>(p: Props<T, C>): (h: seq<string>)
    ensures |h| == ColSpan(p)
    ensures forall j :: 0 <= j < |p.columns| ==> h[j] == p.columns[j].header
    ensures p.actions.Some? ==> h[|p.columns|] == ActionsHeader
  {
    seq(|p.columns|, j requires 0 <= j < |p.columns| => p.columns[j].header)
      + if p.actions.Some? then [ActionsHeader] else []
  }

  /**
   * The body: a spinner row while loading (whatever the data), else one message row for
   * empty data, else one row per item in order.
   */
  function Body<T, C>(p: Props<T, C>): (rows: seq<Row<C>>)
    ensures p.loading ==> rows == [SpinnerRow(ColSpan(p))]
    ensures !p.loading && p.data == [] ==>
      rows == [MessageRow(ColSpan(p), p.emptyMessage.GetOr(DefaultEmptyMessage))]
    ensures !p.loading && p.data != [] ==>
      |rows| == |p.data|
      && forall i :: 0 <= i < |p.data| ==> rows[i] == ItemRowOf(p.columns, p.actions, p.data[i])
  {
    if p.loading then [SpinnerRow(ColSpan(p))]
    else if |p.data| == 0 then [MessageRow(ColSpan(p), p.emptyMessage.GetOr(DefaultEmptyMessage))]
    else seq(|p.data|, i requires 0 <= i < |p.data| => ItemRowOf(p.columns, p.actions, p.data[i]))
  }

  /** Every item row has one cell per column, each cell chosen by `Cell`. */
  lemma ItemRowCells<T, C>(p: Props<T, C>, i: int, j: int)
    requires !p.loading && 0 <= i < |p.data| && 0 <= j < |p.columns|
    ensures Body(p)[i].ItemRow? && |Body(p)[i].cells| == |p.columns|
    ensures Body(p)[i].cells[j] == Cell(p.columns[j], p.data[i])
    ensures (Body(p)[i].actions.Some? <==> p.actions.Some?)
  {
  }

  /** The page buttons `1 .. totalPages`. */
  function PageButtons(current: int, total: nat): (b: seq<PageButton>)
    ensures |b| == total
    ensures forall k :: 0 <= k < total ==> b[k].page == k + 1
    ensures forall k :: 0 <= k < total ==> (b[k].active <==> b[k].page == current)
  {
    seq(total, k requires 0 <= k < total => PageButton(k + 1, current == k + 1))
  }

  /** The pagination bar, present only for a given pagination with more than one page. */
  function Bar(pagination: Option<Pagination>): (bar: Option<PaginationBar>)
    ensures bar.Some? <==> pagination.Some? && pagination.value.totalPages > 1
    ensures bar.Some? ==>
      var pg := pagination.value;
      bar.value.previous == NavButton(pg.currentPage - 1, pg.currentPage == 1)
      && bar.value.next == NavButton(pg.currentPage + 1, pg.currentPage == pg.totalPages)
      && bar.value.pages == PageButtons(pg.currentPage, pg.totalPages)
  {
    match pagination
    case Some(pg) =>
      if pg.totalPages > 1 then
        Some(PaginationBar(
          NavButton(pg.currentPage - 1, pg.currentPage == 1),
          PageButtons(pg.currentPage, pg.totalPages),
          NavButton(pg.currentPage + 1, pg.currentPage == pg.totalPages)))
      else None
    case None => None
  }

  /** The buttons strictly ascend, and exactly one is active when the current page is in range. */
  lemma {:induction false} PageButtonsOneActive(current: int, total: nat)
    ensures forall k, l :: 0 <= k < l < total ==> PageButtons(current, total)[k].page < PageButtons(current, total)[l].page
    ensures forall k, l :: 0 <= k < total && 0 <= l < total ==>
      (PageButtons(current, total)[k].active && PageButtons(current, total)[l].active ==> k == l)
    ensures (exists k :: 0 <= k < total && PageButtons(current, total)[k].active) <==> 1 <= current <= total
  {
    var b := PageButtons(current, total);
    if 1 <= current <= total {
      assert b[current - 1].active;
    }
  }

  /** Clicking a button emits `onPageChange` with the button's target; a disabled button emits nothing. */
  function ClickNav(b: NavButton): (e: Option<Event>)
    ensures e.Some? <==> !b.disabled
    ensures e.Some? ==> e.value == PageChange(b.target)
  {
    if b.disabled then None else Some(PageChange(b.target))
  }

  /** Clicking a numbered button emits `onPageChange` with its page; numbered buttons are never disabled. */
  function ClickPage(b: PageButton): Event {
    PageChange(b.page)
  }

  /**
   * Clicking the k-th numbered button of the bar asks for page k + 1, and clicking the active
   * one asks again for the current page.
   */
  lemma ClickPageButton(current: int, total: nat, k: int)
    requires 0 <= k < total
    ensures ClickPage(PageButtons(current, total)[k]) == PageChange(k + 1)
    ensures PageButtons(current, total)[k].active ==> ClickPage(PageButtons(current, total)[k]) == PageChange(current)
  {
  }

  /** The search box, shown only when `searchable`, holding `searchQuery`. */
  function SearchBox<T, C>(p: Props<T, C>): Option<Option<string>> {
    if p.searchable then Some(p.searchQuery) else None
  }

  /**
   * Typing into the search box forwards the typed text unchanged; without a box there is nothing
   * to type into. The event stands for a call of the optional `onSearchChange` callback, so a
   * searchable table given no callback does nothing with it.
   */
  function TypeSearch<T, C>(p: Props<T, C>, typed: string): (e: Option<Event>)
    ensures e.Some? <==> SearchBox(p).Some?
    ensures e.Some? ==> e.value.SearchChange? && e.value.query == typed
  {
    if p.searchable then Some(SearchChange(typed)) else None
  }

  /** The whole rendered table. */
  datatype View<C> = View(searchBox: Option<Option<string>>, headers: seq<string>, body: seq<Row<C>>, bar: Option<PaginationBar>)

  function Render<T, C>(p: Props<T, C>): (v: View<C>)
    ensures v.bar.Some? <==> p.pagination.Some? && p.pagination.value.totalPages > 1
    ensures v.searchBox.Some? <==> p.searchable
    ensures |v.headers| == ColSpan(p)
    ensures p.loading ==> |v.body| == 1 && v.body[0].SpinnerRow?
  {
    View(SearchBox(p), Headers(p), Body(p), Bar(p.pagination))
  }

  /** A two-page table on page one: Previous is disabled, Next leads to page two, and button one is active. */
  lemma ScenarioFirstOfTwoPages()
    ensures var bar := Bar(Some(Pagination(1, 2))).value;
      ClickNav(bar.previous) == None && ClickNav(bar.next) == Some(PageChange(2))
      && bar.pages == [PageButton(1, true), PageButton(2, false)]
  {
    var bar := Bar(Some(Pagination(1, 2))).value;
    assert bar.pages == [PageButton(1, true), PageButton(2, false)];
  }
}
