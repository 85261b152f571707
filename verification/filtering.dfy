/**
 * `applyFilters`'s predicate: up to four AND-ed conditions, each switched off
 * by an empty string (JavaScript's falsy '').
 */
module Filtering {
  import opened Text
  import opened Records

  /** The four filter inputs of the block; '' means "match everything". */
  datatype Filters = Filters(search: string, dateRange: string, documentType: string, status: string)

  /** The filters the block starts with: all four empty. */
  const NoFilters := Filters("", "", "", "")

  /**
   * The local-calendar instants the date-range buckets compare against, as
   * milliseconds: the start of today and of tomorrow, and today's date one,
   * three and twelve months back, as the host's `Date` constructor computes
   * them.
   */
  datatype Clock = Clock(todayStart: int, tomorrowStart: int, monthAgo: int, quarterAgo: int, yearAgo: int)

  /** `7 * 24 * 60 * 60 * 1000`: one week in milliseconds. */
  const WeekMillis := 7 * 24 * 60 * 60 * 1000

  /** The bucket names the date-range switch recognises. */
  predicate KnownRange(range: string) {
    range == "today" || range == "week" || range == "month" || range == "quarter" || range == "year"
  }

  /** The search condition: the lower-cased term occurs in the lower-cased title, description or reference number. */
  predicate MatchesSearch(term: string, item: Request) {
    var t := ToLower(term);
    Contains(ToLower(item.title), t) || Contains(ToLower(item.description), t) || Contains(ToLower(item.referenceNumber), t)
  }

  /** The date-range condition on a creation instant; an unrecognised bucket excludes nothing. */
  predicate InRange(range: string, clock: Clock, created: int) {
    if range == "today" then clock.todayStart <= created < clock.tomorrowStart
    else if range == "week" then created >= clock.todayStart - WeekMillis
    else if range == "month" then created >= clock.monthAgo
    else if range == "quarter" then created >= clock.quarterAgo
    else if range == "year" then created >= clock.yearAgo
    else true
  }

  /** Whether the filter callback keeps item. */
  predicate Keep(f: Filters, clock: Clock, item: Request) {
    && (f.search == "" || MatchesSearch(f.search, item))
    && (f.dateRange == "" || InRange(f.dateRange, clock, item.dateCreated))
    && (f.documentType == "" || item.documentType == f.documentType)
    && (f.status == "" || item.status == f.status)
  }

  /**
   * a is an order-preserving subsequence of b (matched greedily, which finds
   * an embedding whenever one exists).
   */
  predicate Subsequence<T(==)>(a: seq<T>, b: seq<T>)
    decreases |b|
  {
    if |a| == 0 then true
    else if |b| == 0 then false
    else if a[0] == b[0] then Subsequence(a[1..], b[1..])
    else Subsequence(a, b[1..])
  }

  /**
   * `this.items.filter(...)`: keeps, in their original order, exactly the
   * items every non-empty condition accepts, each as often as it occurs.
   */
  function FilterItems(items: seq<Request>, f: Filters, clock: Clock): (r: seq<Request>)
    ensures forall x :: multiset(r)[x] == if Keep(f, clock, x) then multiset(items)[x] else 0
    ensures forall x :: x in r ==> Keep(f, clock, x)
    ensures Subsequence(r, items)
    ensures |r| <= |items|
  {
    if |items| == 0 then []
    else
      var rest := FilterItems(items[1..], f, clock);
      assert items == [items[0]] + items[1..];
      if Keep(f, clock, items[0]) then [items[0]] + rest
      else
        assert |rest| > 0 ==> rest[0] != items[0] by {
          if |rest| > 0 {
            assert rest[0] in rest;
          }
        }
        rest
  }

  /** With all four conditions empty the filter returns the items unchanged, in the same order. */
  lemma {:induction false} NoFiltersKeepsAll(items: seq<Request>, clock: Clock)
    ensures FilterItems(items, NoFilters, clock) == items
  {
    if |items| > 0 {
      NoFiltersKeepsAll(items[1..], clock);
    }
  }

  /** Every kept item satisfies each condition that is switched on. */
  lemma KeptItemsMatch(items: seq<Request>, f: Filters, clock: Clock, x: Request)
    requires x in FilterItems(items, f, clock)
    ensures x in items
    ensures f.search != "" ==>
      || Contains(ToLower(x.title), ToLower(f.search))
      || Contains(ToLower(x.description), ToLower(f.search))
      || Contains(ToLower(x.referenceNumber), ToLower(f.search))
    ensures f.dateRange == "today" ==> clock.todayStart <= x.dateCreated < clock.tomorrowStart
    ensures f.dateRange == "week" ==> x.dateCreated >= clock.todayStart - WeekMillis
    ensures f.dateRange == "month" ==> x.dateCreated >= clock.monthAgo
    ensures f.dateRange == "quarter" ==> x.dateCreated >= clock.quarterAgo
    ensures f.dateRange == "year" ==> x.dateCreated >= clock.yearAgo
    ensures f.documentType != "" ==> x.documentType == f.documentType
    ensures f.status != "" ==> x.status == f.status
  {
    var r := FilterItems(items, f, clock);
    assert multiset(r)[x] > 0;
  }

  /** A date-range value the switch does not know filters exactly like no date range. */
  lemma {:induction false} UnknownRangeExcludesNothing(items: seq<Request>, f: Filters, clock: Clock)
    requires !KnownRange(f.dateRange)
    ensures FilterItems(items, f, clock) == FilterItems(items, f.(dateRange := ""), clock)
  {
    if |items| > 0 {
      UnknownRangeExcludesNothing(items[1..], f, clock);
    }
  }
}
