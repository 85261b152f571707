/**
 * The My Requests block: its state, the events that change it (loading,
 * filter changes, page changes) and the view `render` derives from it.
 */
module MyRequests {
  import opened Outcomes
  import opened Records
  import opened Filtering
  import opened Sorting
  import opened Paging
  import opened Projection

  /** The block configuration after attribute parsing (`getConfig`). */
  datatype Config = Config(
    sortBy: string,
    sortOrder: string,
    itemsPerPage: int,
    requestsFolder: string,
    folderStructure: string)

  /** The mutable fields of a `MyRequestsBlock`. */
  datatype Block = Block(
    items: seq<Request>,
    filteredItems: seq<Request>,
    currentPage: int,
    itemsPerPage: int,
    filters: Filters,
    sortBy: string,
    sortOrder: string)

  /** What `render` leaves visible: the empty state, or a page of records and, when there are several pages, the pagination bar. */
  datatype View = EmptyState | Content(pageItems: seq<Request>, pagination: Option<Bar>)

  /** A change of one filter control. */
  datatype FilterEvent = Search(value: string) | DateRange(value: string) | DocumentType(value: string) | Status(value: string)

  /**
   * The constructor: no items loaded, nothing filtered, page 1, all filters
   * empty, and the configured sort (empty strings fall back to
   * "dateCreated" and "desc").
   */
  function Construct(config: Config): (b: Block)
    requires config.itemsPerPage > 0
    ensures b.items == [] && b.filteredItems == []
    ensures b.currentPage == 1
    ensures b.itemsPerPage == config.itemsPerPage
    ensures b.filters == NoFilters
    ensures b.sortBy == (if config.sortBy == "" then "dateCreated" else config.sortBy)
    ensures b.sortOrder == (if config.sortOrder == "" then "desc" else config.sortOrder)
  {
    Block(
      items := [],
      filteredItems := [],
      currentPage := 1,
      itemsPerPage := config.itemsPerPage,
      filters := NoFilters,
      sortBy := if config.sortBy == "" then "dateCreated" else config.sortBy,
      sortOrder := if config.sortOrder == "" then "desc" else config.sortOrder)
  }

  /**
   * `init` up to its `render` call: construct, then load the items from the
   * configured folder (or the sample set). Nothing is filtered yet.
   */
  function Init(config: Config, folderData: map<string, Listing>): (b: Block)
    requires config.itemsPerPage > 0
    ensures b.items == LoadItems(folderData, config.requestsFolder, config.folderStructure)
    ensures b.filteredItems == []
    ensures b.currentPage == 1
    ensures b.(items := []) == Construct(config)
  {
    Construct(config).(items := LoadItems(folderData, config.requestsFolder, config.folderStructure))
  }

  /**
   * `applyFilters`: the filtered list becomes the items the filters keep,
   * sorted by the configured key and order, and the page returns to 1; the
   * items, filters and sort settings are untouched.
   */
  function ApplyFilters(b: Block, clock: Clock): (r: Block)
    ensures r.currentPage == 1
    ensures forall x :: multiset(r.filteredItems)[x] == (if Keep(b.filters, clock, x) then multiset(b.items)[x] else 0)
    ensures b.sortOrder == "asc" ==> forall i, j :: 0 <= i < j < |r.filteredItems| ==>
      !KeyLess(SortKey(r.filteredItems[j], b.sortBy), SortKey(r.filteredItems[i], b.sortBy))
    ensures b.sortOrder != "asc" ==> forall i, j :: 0 <= i < j < |r.filteredItems| ==>
      !KeyLess(SortKey(r.filteredItems[i], b.sortBy), SortKey(r.filteredItems[j], b.sortBy))
    ensures r.items == b.items && r.filters == b.filters && r.itemsPerPage == b.itemsPerPage
    ensures r.sortBy == b.sortBy && r.sortOrder == b.sortOrder
  {
    b.(filteredItems := SortItems(FilterItems(b.items, b.filters, clock), b.sortBy, b.sortOrder),
       currentPage := 1)
  }

  /**
   * The listener of a filter control: store the new value, then `applyFilters`.
   * The filtered list then holds exactly the items the updated filters keep,
   * in the configured order, and only the changed control's filter differs.
   */
  function OnFilterEvent(b: Block, e: FilterEvent, clock: Clock): (r: Block)
    ensures r.currentPage == 1
    ensures r.items == b.items
    ensures r.itemsPerPage == b.itemsPerPage && r.sortBy == b.sortBy && r.sortOrder == b.sortOrder
    ensures forall x :: multiset(r.filteredItems)[x] == (if Keep(r.filters, clock, x) then multiset(b.items)[x] else 0)
    ensures b.sortOrder == "asc" ==> forall i, j :: 0 <= i < j < |r.filteredItems| ==>
      !KeyLess(SortKey(r.filteredItems[j], b.sortBy), SortKey(r.filteredItems[i], b.sortBy))
    ensures b.sortOrder != "asc" ==> forall i, j :: 0 <= i < j < |r.filteredItems| ==>
      !KeyLess(SortKey(r.filteredItems[i], b.sortBy), SortKey(r.filteredItems[j], b.sortBy))
    ensures e.Search? ==> r.filters == b.filters.(search := e.value)
    ensures e.DateRange? ==> r.filters == b.filters.(dateRange := e.value)
    ensures e.DocumentType? ==> r.filters == b.filters.(documentType := e.value)
    ensures e.Status? ==> r.filters == b.filters.(status := e.value)
  {
    var filters := match e
      case Search(v) => b.filters.(search := v)
      case DateRange(v) => b.filters.(dateRange := v)
      case DocumentType(v) => b.filters.(documentType := v)
      case Status(v) => b.filters.(status := v);
    ApplyFilters(b.(filters := filters), clock)
  }

  /** `goToPage`: stores the page as given, without clamping it. */
  function GoToPage(b: Block, page: int): (r: Block)
    ensures r.currentPage == page
    ensures r.(currentPage := b.currentPage) == b
  {
    b.(currentPage := page)
  }

  /**
   * `render`: with no filtered records, the empty state alone; otherwise the
   * current page's records, at most a page's worth, and the pagination bar
   * exactly when there is more than one page.
   */
  function Render(b: Block): (v: View)
    requires b.itemsPerPage > 0
    ensures v.EmptyState? <==> |b.filteredItems| == 0
    ensures v.Content? ==> v.pageItems == PageItems(b.filteredItems, b.currentPage, b.itemsPerPage)
    ensures v.Content? ==> |v.pageItems| <= b.itemsPerPage
    ensures v.Content? ==> (v.pagination.Some? <==> TotalPages(|b.filteredItems|, b.itemsPerPage) > 1)
    ensures v.Content? && v.pagination.Some? ==>
      v.pagination.value == Pagination(b.currentPage, TotalPages(|b.filteredItems|, b.itemsPerPage))
  {
    if |b.filteredItems| == 0 then EmptyState
    else
      var total := TotalPages(|b.filteredItems|, b.itemsPerPage);
      Content(
        PageItems(b.filteredItems, b.currentPage, b.itemsPerPage),
        if total > 1 then Some(Pagination(b.currentPage, total)) else None)
  }

  /**
   * `init` renders before any filter has run, so the empty state shows even
   * when records were loaded, until the first filter event.
   */
  lemma InitShowsEmptyState(config: Config, folderData: map<string, Listing>)
    requires config.itemsPerPage > 0
    ensures Render(Init(config, folderData)) == EmptyState
  {
  }

  /** After a filter event the first page shows the first records of the sorted result. */
  lemma FilterShowsFirstPage(b: Block, e: FilterEvent, clock: Clock)
    requires b.itemsPerPage > 0
    requires |OnFilterEvent(b, e, clock).filteredItems| > 0
    ensures Render(OnFilterEvent(b, e, clock)).pageItems ==
      OnFilterEvent(b, e, clock).filteredItems[..Min(b.itemsPerPage, |OnFilterEvent(b, e, clock).filteredItems|)]
  {
    var r := OnFilterEvent(b, e, clock);
    RealPageSlice(r.filteredItems, 1, r.itemsPerPage);
  }

  /**
   * A page stored past the last one still shows the content area, with no
   * records in it, because `goToPage` does not clamp.
   */
  lemma {:induction false} PageBeyondLastShowsNothing(b: Block, page: int)
    requires b.itemsPerPage > 0
    requires |b.filteredItems| > 0
    requires page > TotalPages(|b.filteredItems|, b.itemsPerPage)
    ensures Render(GoToPage(b, page)).Content?
    ensures Render(GoToPage(b, page)).pageItems == []
  {
    PageOutOfRangeEmpty(b.filteredItems, page, b.itemsPerPage);
  }

  /** With all filters empty, the filtered list holds every loaded record, in sorted order. */
  lemma NoFiltersListsEverything(b: Block, clock: Clock)
    requires b.filters == NoFilters
    ensures multiset(ApplyFilters(b, clock).filteredItems) == multiset(b.items)
  {
    NoFiltersKeepsAll(b.items, clock);
  }
}
