/** Pagination: the offset and cursor query objects (their defaults and bounds) and the
    metadata a page of products carries. The paginated services themselves are fixed only
    by their unit tests; their arithmetic is modelled here as pure functions. */
module Pagination {
  import opened Wrappers

  const DefaultPage: nat := 1
  const DefaultLimit: nat := 20
  const MaxLimit: nat := 100

  datatype SortField = Name | Price | LastUpdated | CreatedAt
  datatype SortOrder = Asc | Desc

  // ---------------------------------------------------------------------------
  // Query validation

  /** A numeric query parameter after `@Type(() => Number)`: absent, or what `Number(s)`
      gave for the string that was sent. */
  datatype QueryNumber = Absent | NaN | Infinite(negative: bool) | Finite(value: real)

  datatype RawOffsetQuery = RawOffsetQuery(page: QueryNumber, limit: QueryNumber, sortBy: Option<string>, sortOrder: Option<string>)
  datatype RawCursorQuery = RawCursorQuery(limit: QueryNumber, cursor: Option<string>, sortBy: Option<string>, sortOrder: Option<string>)

  /** `@IsOptional() @IsPositive() @Min(1)`, and `@Max(100)` when `bounded`, as the
      validator applies them: only a number's sign and range are looked at. */
  predicate AcceptsNumberAsWritten(q: QueryNumber, bounded: bool): (b: bool)
    ensures q.Absent? ==> b
    ensures q.NaN? ==> !b
    ensures q.Finite? ==> (b <==> 1.0 <= q.value && (!bounded || q.value <= MaxLimit as real))
    ensures q.Infinite? ==> (b <==> !q.negative && !bounded)
  {
    match q
    case Absent => true
    case NaN => false
    case Infinite(negative) => !negative && !bounded
    case Finite(v) => v > 0.0 && v >= 1.0 && (!bounded || v <= MaxLimit as real)
  }

  /** The query objects as validated: `sortBy` and `sortOrder` carry only `@IsOptional()`,
      so any string passes. */
  predicate AcceptsOffsetQueryAsWritten(q: RawOffsetQuery) {
    AcceptsNumberAsWritten(q.page, false) && AcceptsNumberAsWritten(q.limit, true)
  }

  predicate AcceptsCursorQueryAsWritten(q: RawCursorQuery) {
    AcceptsNumberAsWritten(q.limit, true)
  }

  /** The validated offset query: a whole page number, a whole limit within bounds, and
      one of the documented sort fields and orders. */
  datatype OffsetQuery = OffsetQuery(page: nat, limit: nat, sortBy: SortField, sortOrder: SortOrder)
  datatype CursorQuery = CursorQuery(limit: nat, cursor: Option<string>, sortBy: SortField, sortOrder: SortOrder)

  function ParseSortField(s: string): Option<SortField> {
    if s == "name" then Some(Name)
    else if s == "price" then Some(Price)
    else if s == "lastUpdated" then Some(LastUpdated)
    else if s == "createdAt" then Some(CreatedAt)
    else None
  }

  function ParseSortOrder(s: string): Option<SortOrder> {
    if s == "asc" then Some(Asc) else if s == "desc" then Some(Desc) else None
  }

  /** A whole number `>= 1` (and `<= 100` when `bounded`), or the default when absent. */
  function WholeNumber(q: QueryNumber, bounded: bool, default: nat): (r: Option<nat>)
    ensures q.Absent? ==> r == Some(default)
    ensures r.Some? && !q.Absent? ==>
      q.Finite? && q.value == r.value as real && 1 <= r.value && (!bounded || r.value <= MaxLimit)
    ensures q.Finite? && q.value == q.value.Floor as real && 1.0 <= q.value && (!bounded || q.value <= MaxLimit as real) ==> r.Some?
  {
    match q
    case Absent => Some(default)
    case Finite(v) =>
      if v == v.Floor as real && 1 <= v.Floor && (!bounded || v.Floor <= MaxLimit) then Some(v.Floor as nat) else None
    case _ => None
  }

  function SortFieldOrDefault(s: Option<string>): Option<SortField> {
    if s.None? then Some(LastUpdated) else ParseSortField(s.value)
  }

  function SortOrderOrDefault(s: Option<string>): Option<SortOrder> {
    if s.None? then Some(Desc) else ParseSortOrder(s.value)
  }

  /** The offset query as its documentation describes it, defaults filled in. */
  function ValidateOffsetQuery(q: RawOffsetQuery): (r: Option<OffsetQuery>)
    ensures r.Some? <==>
      && WholeNumber(q.page, false, DefaultPage).Some? && WholeNumber(q.limit, true, DefaultLimit).Some?
      && SortFieldOrDefault(q.sortBy).Some? && SortOrderOrDefault(q.sortOrder).Some?
    ensures r.Some? ==> r.value.page >= 1 && 1 <= r.value.limit <= MaxLimit
    ensures r.Some? ==> (if q.page.Absent? then r.value.page == DefaultPage else q.page == Finite(r.value.page as real))
    ensures r.Some? ==> (if q.limit.Absent? then r.value.limit == DefaultLimit else q.limit == Finite(r.value.limit as real))
    ensures r.Some? ==> (if q.sortBy.None? then r.value.sortBy == LastUpdated else ParseSortField(q.sortBy.value) == Some(r.value.sortBy))
    ensures r.Some? ==> (if q.sortOrder.None? then r.value.sortOrder == Desc else ParseSortOrder(q.sortOrder.value) == Some(r.value.sortOrder))
  {
    var page, limit := WholeNumber(q.page, false, DefaultPage), WholeNumber(q.limit, true, DefaultLimit);
    var sortBy, sortOrder := SortFieldOrDefault(q.sortBy), SortOrderOrDefault(q.sortOrder);
    if page.Some? && limit.Some? && sortBy.Some? && sortOrder.Some? then
      Some(OffsetQuery(page.value, limit.value, sortBy.value, sortOrder.value))
    else None
  }

  /** The cursor query as documented: the same limit rule and defaults; the cursor is optional. */
  function ValidateCursorQuery(q: RawCursorQuery): (r: Option<CursorQuery>)
    ensures r.Some? <==>
      WholeNumber(q.limit, true, DefaultLimit).Some? && SortFieldOrDefault(q.sortBy).Some? && SortOrderOrDefault(q.sortOrder).Some?
    ensures r.Some? ==> 1 <= r.value.limit <= MaxLimit && r.value.cursor == q.cursor
    ensures r.Some? ==> (if q.limit.Absent? then r.value.limit == DefaultLimit else q.limit == Finite(r.value.limit as real))
    ensures r.Some? ==> (if q.sortBy.None? then r.value.sortBy == LastUpdated else ParseSortField(q.sortBy.value) == Some(r.value.sortBy))
    ensures r.Some? ==> (if q.sortOrder.None? then r.value.sortOrder == Desc else ParseSortOrder(q.sortOrder.value) == Some(r.value.sortOrder))
  {
    var limit := WholeNumber(q.limit, true, DefaultLimit);
    var sortBy, sortOrder := SortFieldOrDefault(q.sortBy), SortOrderOrDefault(q.sortOrder);
    if limit.Some? && sortBy.Some? && sortOrder.Some? then
      Some(CursorQuery(limit.value, q.cursor, sortBy.value, sortOrder.value))
    else None
  }

  /** Every query the documented rules accept, the decorators accept too. */
  lemma ValidatedIsAcceptedAsWritten(q: RawOffsetQuery, c: RawCursorQuery)
    ensures ValidateOffsetQuery(q).Some? ==> AcceptsOffsetQueryAsWritten(q)
    ensures ValidateCursorQuery(c).Some? ==> AcceptsCursorQueryAsWritten(c)
  {
  }

  /** An empty query gets page 1, limit 20, `lastUpdated`, `desc`; `page=0&limit=200` is
      rejected under both rules. */
  lemma OffsetDefaultsAndBounds()
    ensures ValidateOffsetQuery(RawOffsetQuery(Absent, Absent, None, None)) == Some(OffsetQuery(1, 20, LastUpdated, Desc))
    ensures ValidateCursorQuery(RawCursorQuery(Absent, None, None, None)) == Some(CursorQuery(20, None, LastUpdated, Desc))
    ensures !AcceptsOffsetQueryAsWritten(RawOffsetQuery(Finite(0.0), Finite(200.0), None, None))
    ensures ValidateOffsetQuery(RawOffsetQuery(Finite(0.0), Finite(200.0), None, None)).None?
  {
  }

  /** The decorators let a fractional page and limit through. */
  lemma FractionalPageIsAccepted()
    ensures AcceptsOffsetQueryAsWritten(RawOffsetQuery(Finite(1.5), Finite(2.5), None, None))
    ensures ValidateOffsetQuery(RawOffsetQuery(Finite(1.5), Finite(2.5), None, None)).None?
  {
    assert (1.5).Floor == 1;
  }

  /** The decorators let `page=Infinity` through (it is positive and at least 1). */
  lemma InfinitePageIsAccepted()
    ensures AcceptsOffsetQueryAsWritten(RawOffsetQuery(Infinite(false), Absent, None, None))
    ensures ValidateOffsetQuery(RawOffsetQuery(Infinite(false), Absent, None, None)).None?
  {
  }

  /** The decorators let any sort field and order through, though only four fields and two
      orders are documented. */
  lemma UnknownSortIsAccepted()
    ensures AcceptsOffsetQueryAsWritten(RawOffsetQuery(Absent, Absent, Some("foo"), Some("sideways")))
    ensures AcceptsCursorQueryAsWritten(RawCursorQuery(Absent, None, Some("foo"), None))
    ensures ValidateOffsetQuery(RawOffsetQuery(Absent, Absent, Some("foo"), None)).None?
    ensures ValidateCursorQuery(RawCursorQuery(Absent, None, Some("foo"), None)).None?
  {
  }

  // ---------------------------------------------------------------------------
  // Offset pages

  datatype PaginationMeta = PaginationMeta(
    page: nat,
    limit: nat,
    total: nat,
    totalPages: nat,
    hasNextPage: bool,
    hasPreviousPage: bool,
    nextPage: Option<nat>,
    previousPage: Option<nat>)

  /** `Math.ceil(total / limit)`: the fewest pages of `limit` rows that hold `total` rows. */
  function TotalPages(total: nat, limit: nat): (r: nat)
    requires limit >= 1
    ensures r * limit >= total
    ensures r == 0 || (r - 1) * limit < total
  {
    (total + limit - 1) / limit
  }

  /** The metadata of page `page` of `total` rows. */
  function OffsetMeta(page: nat, limit: nat, total: nat): (m: PaginationMeta)
    requires page >= 1 && limit >= 1
    ensures m.page == page && m.limit == limit && m.total == total && m.totalPages == TotalPages(total, limit)
    ensures m.hasNextPage <==> page < m.totalPages
    ensures m.hasPreviousPage <==> page > 1
    ensures m.nextPage.Some? <==> m.hasNextPage
    ensures m.previousPage.Some? <==> m.hasPreviousPage
    ensures m.nextPage.Some? ==> m.nextPage.value == page + 1
    ensures m.previousPage.Some? ==> m.previousPage.value == page - 1
  {
    var totalPages := TotalPages(total, limit);
    var hasNext, hasPrevious := page < totalPages, page > 1;
    PaginationMeta(page, limit, total, totalPages, hasNext, hasPrevious,
                   if hasNext then Some(page + 1) else None,
                   if hasPrevious then Some(page - 1) else None)
  }

  /** `skip = (page - 1) * limit`. */
  function Skip(page: nat, limit: nat): nat
    requires page >= 1
  {
    (page - 1) * limit
  }

  function MinNat(a: nat, b: nat): nat {
    if a <= b then a else b
  }

  /** The rows `findMany({skip, take: limit})` returns from the ordered rows. */
  function PageOf<T>(rows: seq<T>, page: nat, limit: nat): (r: seq<T>)
    requires page >= 1
    ensures |r| <= limit
    ensures forall k :: 0 <= k < |r| ==> Skip(page, limit) + k < |rows| && r[k] == rows[Skip(page, limit) + k]
  {
    var from := MinNat(Skip(page, limit), |rows|);
    rows[from..MinNat(from + limit, |rows|)]
  }

  lemma MulMonotone(a: nat, b: nat, c: nat)
    requires a <= b
    ensures a * c <= b * c
  {
  }

  /** A page has rows exactly when it starts before the end. */
  lemma PageNonEmptyIff<T>(rows: seq<T>, page: nat, limit: nat)
    requires page >= 1 && limit >= 1
    ensures |PageOf(rows, page, limit)| > 0 <==> Skip(page, limit) < |rows|
  {
  }

  /** `hasNextPage` holds exactly when the next page has rows. */
  lemma HasNextIffNextPageNonEmpty<T>(rows: seq<T>, page: nat, limit: nat)
    requires page >= 1 && limit >= 1
    ensures OffsetMeta(page, limit, |rows|).hasNextPage <==> |PageOf(rows, page + 1, limit)| > 0
  {
    var n := TotalPages(|rows|, limit);
    PageNonEmptyIff(rows, page + 1, limit);
    assert Skip(page + 1, limit) == page * limit;
    if page < n {
      MulMonotone(page, n - 1, limit);
    } else {
      MulMonotone(n, page, limit);
    }
  }

  /** Every row lies on a page between 1 and `totalPages`. */
  lemma {:induction false} PagesCoverRows<T>(rows: seq<T>, limit: nat, n: nat)
    requires limit >= 1
    ensures n <= TotalPages(|rows|, limit) ==> Pages(rows, limit, n) == rows[..MinNat(n * limit, |rows|)]
    ensures Pages(rows, limit, TotalPages(|rows|, limit)) == rows
  {
    var t := TotalPages(|rows|, limit);
    PagesPrefix(rows, limit, n);
    PagesPrefix(rows, limit, t);
    assert rows[..MinNat(t * limit, |rows|)] == rows;
  }

  /** Page `n` is the slice between the ends of pages `n - 1` and `n`. */
  lemma PageIsSlice<T>(rows: seq<T>, limit: nat, n: nat)
    requires n >= 1
    ensures MinNat((n - 1) * limit, |rows|) <= MinNat(n * limit, |rows|)
    ensures PageOf(rows, n, limit) == rows[MinNat((n - 1) * limit, |rows|)..MinNat(n * limit, |rows|)]
  {
    assert n * limit == (n - 1) * limit + limit;
  }

  lemma SlicesJoin<T>(rows: seq<T>, a: nat, b: nat)
    requires a <= b <= |rows|
    ensures rows[..a] + rows[a..b] == rows[..b]
  {
  }

  lemma {:induction false} PagesPrefix<T>(rows: seq<T>, limit: nat, n: nat)
    requires limit >= 1
    ensures Pages(rows, limit, n) == rows[..MinNat(n * limit, |rows|)]
  {
    if n > 0 {
      PagesPrefix(rows, limit, n - 1);
      PageIsSlice(rows, limit, n);
      SlicesJoin(rows, MinNat((n - 1) * limit, |rows|), MinNat(n * limit, |rows|));
    }
  }

  /** Pages 1 to `n`, one after the other. */
  function Pages<T>(rows: seq<T>, limit: nat, n: nat): seq<T> {
    if n == 0 then [] else Pages(rows, limit, n - 1) + PageOf(rows, n, limit)
  }

  /** A paginated listing for a validated query: the page's rows and its metadata. */
  function ListPage<T>(rows: seq<T>, q: OffsetQuery): (r: (seq<T>, PaginationMeta))
    requires q.page >= 1 && q.limit >= 1
    ensures |r.0| == MinNat(q.limit, |rows| - MinNat(Skip(q.page, q.limit), |rows|))
    ensures forall k :: 0 <= k < |r.0| ==> Skip(q.page, q.limit) + k < |rows| && r.0[k] == rows[Skip(q.page, q.limit) + k]
    ensures r.1 == OffsetMeta(q.page, q.limit, |rows|)
    ensures r.1.hasNextPage <==> |PageOf(rows, q.page + 1, q.limit)| > 0
    ensures r.1.hasPreviousPage <==> q.page > 1
  {
    HasNextIffNextPageNonEmpty(rows, q.page, q.limit);
    (PageOf(rows, q.page, q.limit), OffsetMeta(q.page, q.limit, |rows|))
  }

  /** The page metadata the unit tests expect. */
  lemma OffsetExamples()
    ensures var m := OffsetMeta(1, 20, 50); m.totalPages == 3 && m.hasNextPage && !m.hasPreviousPage && Skip(1, 20) == 0
    ensures var m := OffsetMeta(2, 10, 50); m.totalPages == 5 && m.hasNextPage && m.hasPreviousPage && Skip(2, 10) == 10
    ensures var m := OffsetMeta(3, 20, 50); !m.hasNextPage && m.hasPreviousPage && m.nextPage.None? && m.previousPage == Some(2)
    ensures var m := OffsetMeta(2, 5, 15); m.totalPages == 3 && Skip(2, 5) == 5
  {
  }

  // ---------------------------------------------------------------------------
  // Cursor pages

  datatype CursorMeta = CursorMeta(
    limit: nat,
    total: nat,
    hasNextPage: bool,
    nextCursor: Option<string>,
    currentCursor: Option<string>)

  /** A cursor page from `fetched`, the rows read with `take: limit + 1`: at most `limit`
      of them are returned, and the extra row only tells that another page exists. */
  function CursorPage<T>(fetched: seq<T>, idOf: T -> string, limit: nat, total: nat, cursor: Option<string>)
    : (r: (seq<T>, CursorMeta))
    requires limit >= 1
    ensures |r.0| == MinNat(limit, |fetched|) && r.0 == fetched[..|r.0|]
    ensures r.1.hasNextPage <==> |fetched| > limit
    ensures r.1.nextCursor.Some? <==> r.1.hasNextPage
    ensures r.1.hasNextPage ==> r.1.nextCursor == Some(idOf(r.0[|r.0| - 1]))
    ensures r.1.limit == limit && r.1.total == total && r.1.currentCursor == cursor
  {
    var hasNext := |fetched| > limit;
    var data := if hasNext then fetched[..limit] else fetched;
    (data, CursorMeta(limit, total, hasNext, if hasNext then Some(idOf(data[limit - 1])) else None, cursor))
  }

  /** With `take: limit + 1` from the rows after the cursor, `hasNextPage` holds exactly
      when rows remain past this page, and the next page starts right after `nextCursor`. */
  lemma LookAheadFindsMore<T>(rest: seq<T>, idOf: T -> string, limit: nat, total: nat, cursor: Option<string>)
    requires limit >= 1
    ensures var (data, meta) := CursorPage(rest[..MinNat(limit + 1, |rest|)], idOf, limit, total, cursor);
      && (meta.hasNextPage <==> |rest| > limit)
      && data == rest[..|data|]
      && (meta.hasNextPage ==> |data| == limit && meta.nextCursor == Some(idOf(rest[limit - 1])))
  {
  }

  /** The cursor pages the unit tests expect: three rows fetched for limit 2 give two rows
      and cursor '2'; one row gives no next page and no cursor. */
  lemma CursorExamples(idOf: string -> string)
    requires forall s :: idOf(s) == s
    ensures var (data, meta) := CursorPage(["1", "2", "3"], idOf, 2, 50, None);
      |data| == 2 && meta.hasNextPage && meta.nextCursor == Some("2") && meta.limit == 2
    ensures var (data, meta) := CursorPage(["1"], idOf, 2, 50, None);
      |data| == 1 && !meta.hasNextPage && meta.nextCursor.None?
  {
  }
}
