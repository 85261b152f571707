/**
 * Page arithmetic of `render` and the page-button window of
 * `renderPagination`. The current page is whatever `goToPage` stored: it is
 * not clamped, so every function here accepts any integer page.
 */
module Paging {

  /** ECMAScript's index normalisation for `slice`: a negative index counts from the end; the result lies in [0, len]. */
  function SliceIndex(rel: int, len: nat): (k: nat)
    ensures k <= len
    ensures 0 <= rel ==> k == if rel < len then rel else len
    ensures rel < 0 ==> k == if len + rel < 0 then 0 else len + rel
  {
    if rel < 0 then (if len + rel < 0 then 0 else len + rel)
    else if rel < len then rel else len
  }

  /** `Array.prototype.slice(start, end)`. */
  function Slice<T>(s: seq<T>, start: int, end: int): (r: seq<T>)
    ensures 0 <= start <= end <= |s| ==> r == s[start..end]
  {
    var from := SliceIndex(start, |s|);
    var to := SliceIndex(end, |s|);
    if from < to then s[from..to] else []
  }

  function Min(a: int, b: int): int {
    if a < b then a else b
  }

  /** `Math.ceil(n / perPage)` for a positive page size. */
  function TotalPages(n: nat, perPage: int): (t: nat)
    requires perPage > 0
    ensures (t - 1) * perPage < n <= t * perPage || (n == 0 && t == 0)
  {
    (n + perPage - 1) / perPage
  }

  /**
   * The records `render` shows on page `page`: the slice from
   * `(page - 1) * perPage` of length `perPage`. Whatever page is stored, no
   * more than perPage records are shown.
   */
  function PageItems<T>(items: seq<T>, page: int, perPage: int): (r: seq<T>)
    requires perPage > 0
    ensures |r| <= perPage
  {
    var start := (page - 1) * perPage;
    SliceLength(items, start, start + perPage);
    Slice(items, start, start + perPage)
  }

  /** Page k of the real pages shows records [(k-1)p, min(kp, n)). */
  lemma RealPageSlice<T>(items: seq<T>, page: int, perPage: int)
    requires perPage > 0
    requires 1 <= page <= TotalPages(|items|, perPage)
    ensures PageItems(items, page, perPage) == items[(page - 1) * perPage .. Min((page - 1) * perPage + perPage, |items|)]
  {
    PageStart(|items|, perPage, page);
  }

  /** A page past the last one, and page 0, show nothing. */
  lemma PageOutOfRangeEmpty<T>(items: seq<T>, page: int, perPage: int)
    requires perPage > 0
    requires page > TotalPages(|items|, perPage) || page == 0
    ensures PageItems(items, page, perPage) == []
  {
    PageStart(|items|, perPage, page);
  }

  /** Where page `page` starts relative to the n records. */
  lemma PageStart(n: nat, p: int, page: int)
    requires p > 0
    ensures 1 <= page <= TotalPages(n, p) ==> 0 <= (page - 1) * p < n
    ensures page > TotalPages(n, p) ==> (page - 1) * p >= n
  {
    var t := TotalPages(n, p);
    if 1 <= page <= t {
      MulMonotone(page - 1, t - 1, p);
    }
    if page > t {
      MulMonotone(t, page - 1, p);
    }
  }

  /** A slice is never longer than its index range. */
  lemma SliceLength<T>(s: seq<T>, start: int, end: int)
    requires start <= end
    ensures |Slice(s, start, end)| <= end - start
  {
  }

  lemma MulMonotone(a: int, b: int, p: int)
    requires a <= b && p > 0
    ensures a * p <= b * p
  {
    assert b * p - a * p == (b - a) * p;
  }

  // ---------------------------------------------------------------------
  // The page-button window

  /** One element of the pagination bar between Previous and Next. */
  datatype PageEntry = PageButton(page: int, active: bool) | Ellipsis(at: int) {
    /** The page position the element stands for. */
    function Position(): int {
      if PageButton? then page else at
    }
  }

  /** The pagination bar: Previous, the page entries, Next. */
  datatype Bar = Bar(previousDisabled: bool, entries: seq<PageEntry>, nextDisabled: bool)

  /** Page i gets a button: the first page, the last page, and pages within two of the current one. */
  predicate ShowsButton(i: int, current: int, total: int) {
    i == 1 || i == total || (current - 2 <= i <= current + 2)
  }

  /** The button page i gets: active when it is the current page. */
  function ButtonFor(i: int, current: int): PageEntry {
    PageButton(i, i == current)
  }

  /** The entries for pages from..total, in page order. */
  function Entries(current: int, total: int, from: int): (r: seq<PageEntry>)
    requires 1 <= from
    ensures forall k :: 0 <= k < |r| ==> from <= r[k].Position() <= total
    ensures forall k, l :: 0 <= k < l < |r| ==> r[k].Position() < r[l].Position()
    ensures forall k :: 0 <= k < |r| && r[k].PageButton? ==>
      ShowsButton(r[k].page, current, total) && r[k].active == (r[k].page == current)
    ensures forall k :: 0 <= k < |r| && r[k].Ellipsis? ==>
      !ShowsButton(r[k].at, current, total) && (r[k].at == current - 3 || r[k].at == current + 3)
    decreases total - from
  {
    if from > total then []
    else
      var rest := Entries(current, total, from + 1);
      if ShowsButton(from, current, total) then [ButtonFor(from, current)] + rest
      else if from == current - 3 || from == current + 3 then [Ellipsis(from)] + rest
      else rest
  }

  /** Every page in from..total that qualifies gets its button or its ellipsis. */
  lemma {:induction false} EntriesComplete(current: int, total: int, from: int, i: int)
    requires 1 <= from <= i <= total
    ensures ShowsButton(i, current, total) ==> ButtonFor(i, current) in Entries(current, total, from)
    ensures !ShowsButton(i, current, total) && (i == current - 3 || i == current + 3) ==>
      Ellipsis(i) in Entries(current, total, from)
    decreases i - from
  {
    if from < i {
      EntriesComplete(current, total, from + 1, i);
    }
  }

  /**
   * `renderPagination(totalPages)` with the stored current page: page entries
   * in strictly increasing page order within 1..totalPages, the current page's
   * button alone active; Previous is disabled exactly on page 1 and Next
   * exactly on the last page.
   */
  function Pagination(current: int, total: int): (b: Bar)
    requires total >= 1
    ensures forall k, l :: 0 <= k < l < |b.entries| ==> b.entries[k].Position() < b.entries[l].Position()
    ensures forall k :: 0 <= k < |b.entries| ==> 1 <= b.entries[k].Position() <= total
    ensures forall k :: 0 <= k < |b.entries| && b.entries[k].PageButton? ==>
      b.entries[k].active == (b.entries[k].page == current)
    ensures b.previousDisabled <==> current == 1
    ensures b.nextDisabled <==> current == total
  {
    Bar(current == 1, Entries(current, total, 1), current == total)
  }

  /** The first and last pages and every page within two of the current one are buttons. */
  lemma PaginationButtons(current: int, total: int)
    requires total >= 1
    ensures ButtonFor(1, current) in Pagination(current, total).entries
    ensures ButtonFor(total, current) in Pagination(current, total).entries
    ensures forall i :: 1 <= i <= total && current - 2 <= i <= current + 2 ==>
      ButtonFor(i, current) in Pagination(current, total).entries
  {
    EntriesComplete(current, total, 1, 1);
    EntriesComplete(current, total, 1, total);
    forall i | 1 <= i <= total && current - 2 <= i <= current + 2
      ensures ButtonFor(i, current) in Pagination(current, total).entries
    {
      EntriesComplete(current, total, 1, i);
    }
  }

  /**
   * An ellipsis stands at page i exactly when i is three before or after the
   * current page, within 1..totalPages, and not the first or last page; no
   * page has both an ellipsis and a button.
   */
  lemma PaginationEllipses(current: int, total: int)
    requires total >= 1
    ensures forall i :: Ellipsis(i) in Pagination(current, total).entries <==>
      && 1 <= i <= total
      && (i == current - 3 || i == current + 3)
      && i != 1 && i != total
    ensures forall i :: Ellipsis(i) in Pagination(current, total).entries ==>
      ButtonFor(i, current) !in Pagination(current, total).entries
  {
    var entries := Pagination(current, total).entries;
    forall i | 1 <= i <= total && (i == current - 3 || i == current + 3) && i != 1 && i != total
      ensures Ellipsis(i) in entries
    {
      EntriesComplete(current, total, 1, i);
    }
    forall i | Ellipsis(i) in entries
      ensures 1 <= i <= total && ButtonFor(i, current) !in entries
    {
      var k :| 0 <= k < |entries| && entries[k] == Ellipsis(i);
      assert entries[k].Position() == i;
    }
  }
}
