/** The catalogue page's filter and paging state: filters read from and
    written back to the URL query, the pagination reported by the server, and
    the window of at most five page-number buttons. */
module ProductsPage {
  import opened Common
  import opened Catalog
  import opened CartContext

  const DefaultSort: string := "newest"
  const MaxPageButtons: int := 5

  datatype Filters = Filters(
    search: string,
    category: string,
    minPrice: string,
    maxPrice: string,
    sort: string,
    page: int)

  /** The filters the page's inputs change. */
  datatype FilterKey = Search | Category | MinPrice | MaxPrice | Sort

  /** A filter value as it sits in the filters object: text, or the page number. */
  datatype FilterValue = Text(text: string) | Number(n: int)

  datatype Pagination = Pagination(
    total: int,
    totalPages: int,
    currentPage: int,
    hasNextPage: bool,
    hasPrevPage: bool)

  const DefaultFilters: Filters := Filters("", "", "", "", DefaultSort, 1)
  const InitialPagination: Pagination := Pagination(0, 0, 1, false, false)

  /** `URLSearchParams.get`: the first value stored under `key`. */
  function GetParam(url: seq<(string, string)>, key: string): (r: Option<string>)
    ensures r.Some? <==> exists i :: 0 <= i < |url| && url[i].0 == key
    ensures r.Some? ==>
      exists i :: 0 <= i < |url| && url[i] == (key, r.value) && forall j :: 0 <= j < i ==> url[j].0 != key
  {
    if url == [] then None
    else if url[0].0 == key then Some(url[0].1)
    else
      assert forall i :: 1 <= i < |url| ==> url[i] == url[1..][i - 1];
      GetParam(url[1..], key)
  }

  /** `searchParams.get(key) || fallback` */
  function ParamOr(url: seq<(string, string)>, key: string, fallback: string): string {
    var v := GetParam(url, key);
    if v.Some? && v.value != "" then v.value else fallback
  }

  /** `searchParams.get(key) || fallback` is the first value stored under
      `key` when that value is non-empty, and the fallback when the key is
      absent or its first value is empty. */
  lemma ParamOrFirst(url: seq<(string, string)>, key: string, fallback: string, i: nat)
    requires i < |url| && url[i].0 == key
    requires forall j :: 0 <= j < i ==> url[j].0 != key
    ensures ParamOr(url, key, fallback) == if url[i].1 != "" then url[i].1 else fallback
  {
    var r := GetParam(url, key);
    var k :| 0 <= k < |url| && url[k] == (key, r.value) && forall j :: 0 <= j < k ==> url[j].0 != key;
    assert k == i;
  }

  lemma ParamOrAbsent(url: seq<(string, string)>, key: string, fallback: string)
    requires forall j :: 0 <= j < |url| ==> url[j].0 != key
    ensures ParamOr(url, key, fallback) == fallback
  {
  }

  /** The filters the page starts with. `parsedPage` is what `parseInt` makes
      of the `page` parameter (None for NaN); a falsy result means page 1. */
  function InitialFilters(url: seq<(string, string)>, parsedPage: Option<int>): Filters {
    Filters(ParamOr(url, "search", ""), ParamOr(url, "category", ""),
            ParamOr(url, "minPrice", ""), ParamOr(url, "maxPrice", ""),
            ParamOr(url, "sort", DefaultSort),
            if parsedPage.Some? && parsedPage.value != 0 then parsedPage.value else 1)
  }

  /** Without query parameters the page starts from the defaults, and the
      starting page is never the falsy 0. */
  lemma InitialFiltersDefaults(url: seq<(string, string)>, parsedPage: Option<int>)
    ensures InitialFilters([], None) == DefaultFilters
    ensures InitialFilters(url, parsedPage).page != 0
    ensures InitialFilters(url, parsedPage).sort != ""
  {
  }

  /** `Object.entries(filters)`, in the object's key order. */
  function Entries(f: Filters): seq<(string, FilterValue)> {
    [("search", Text(f.search)), ("category", Text(f.category)),
     ("minPrice", Text(f.minPrice)), ("maxPrice", Text(f.maxPrice)),
     ("sort", Text(f.sort)), ("page", Number(f.page))]
  }

  /** `value && value !== ''` */
  predicate Truthy(v: FilterValue) {
    match v
    case Text(s) => s != ""
    case Number(n) => n != 0
  }

  /** The string `params.set` stores. */
  function ParamText(v: FilterValue): string {
    match v
    case Text(s) => s
    case Number(n) => IntToString(n)
  }

  /** The query parameters updateURL writes for these entries. */
  function QueryOf(entries: seq<(string, FilterValue)>): seq<(string, string)> {
    if entries == [] then []
    else
      var last := entries[|entries| - 1];
      QueryOf(entries[..|entries| - 1]) + (if Truthy(last.1) then [(last.0, ParamText(last.1))] else [])
  }

  /** Exactly the truthy entries reach the query, with their own keys. */
  lemma {:induction false} QueryOfMembers(entries: seq<(string, FilterValue)>)
    ensures forall k, s :: (k, s) in QueryOf(entries) <==>
      exists i :: 0 <= i < |entries| && entries[i].0 == k && Truthy(entries[i].1) && ParamText(entries[i].1) == s
  {
    if entries != [] {
      var init := entries[..|entries| - 1];
      QueryOfMembers(init);
      assert forall i :: 0 <= i < |init| ==> init[i] == entries[i];
    }
  }

  /** updateURL: the query holds exactly the non-empty filters and a non-zero
      page, in the filters' key order. */
  method UpdateURL(f: Filters) returns (params: seq<(string, string)>)
    ensures params == QueryOf(Entries(f))
  {
    var entries := Entries(f);
    params := [];
    var i := 0;
    while i < |entries|
      invariant 0 <= i <= |entries|
      invariant params == QueryOf(entries[..i])
    {
      assert entries[..i + 1][..i] == entries[..i];
      var (key, value) := entries[i];
      if Truthy(value) {
        params := params + [(key, ParamText(value))];
      }
      i := i + 1;
    }
    assert entries[..|entries|] == entries;
  }

  const PageSize: int := 12

  /** The query fetchProducts sends: the page and the page size always, then
      each text filter that is non-empty. */
  function FetchParams(f: Filters): seq<(string, string)> {
    [("page", IntToString(f.page)), ("limit", IntToString(PageSize))] + QueryOf(Entries(f)[..5])
  }

  /** The request and the URL carry the same text filters; the request always
      names a page, the URL only a non-zero one. */
  lemma FetchMatchesQuery(f: Filters)
    ensures forall k, s :: k != "page" && k != "limit" ==>
      ((k, s) in FetchParams(f) <==> (k, s) in QueryOf(Entries(f)))
    ensures ("page", IntToString(f.page)) in FetchParams(f)
    ensures ("page", IntToString(f.page)) in QueryOf(Entries(f)) <==> f.page != 0
  {
    var es := Entries(f);
    QueryOfMembers(es);
    QueryOfMembers(es[..5]);
    assert forall i :: 0 <= i < 5 ==> es[..5][i] == es[i];
    assert forall i :: 0 <= i < 5 ==> es[i].0 != "page";
  }

  /** handleFilterChange's new filters: that key takes the value and the page
      goes back to 1. */
  function WithFilter(f: Filters, key: FilterKey, value: string): Filters {
    match key
    case Search => f.(search := value, page := 1)
    case Category => f.(category := value, page := 1)
    case MinPrice => f.(minPrice := value, page := 1)
    case MaxPrice => f.(maxPrice := value, page := 1)
    case Sort => f.(sort := value, page := 1)
  }

  /** Changing one filter sets it, resets the page and keeps the others. */
  lemma FilterChangeResetsPage(f: Filters, key: FilterKey, value: string)
    ensures var g := WithFilter(f, key, value);
      && g.page == 1
      && (g.search == if key == Search then value else f.search)
      && (g.category == if key == Category then value else f.category)
      && (g.minPrice == if key == MinPrice then value else f.minPrice)
      && (g.maxPrice == if key == MaxPrice then value else f.maxPrice)
      && (g.sort == if key == Sort then value else f.sort)
  {
  }

  /** The pagination state set from a products response. */
  function PaginationOf(total: int, totalPages: int, currentPage: int): Pagination {
    Pagination(total, totalPages, currentPage, currentPage < totalPages, currentPage > 1)
  }

  /** The Previous and Next buttons, enabled by the response's flags, always
      ask for a real page; on a real page each is enabled unless it would
      leave the range. */
  lemma StepButtonsStayInRange(total: int, totalPages: int, currentPage: int)
    ensures var p := PaginationOf(total, totalPages, currentPage);
      && (p.hasPrevPage ==> 1 <= p.currentPage - 1)
      && (p.hasNextPage ==> p.currentPage + 1 <= p.totalPages)
      && (1 <= currentPage <= totalPages ==>
            (p.hasPrevPage <==> currentPage != 1) && (p.hasNextPage <==> currentPage != totalPages))
  {
  }

  /** The paging bar is rendered only for more than one page. */
  predicate PagingShown(p: Pagination) {
    p.totalPages > 1
  }

  function Min(a: int, b: int): int {
    if a <= b then a else b
  }

  /** `n` consecutive numbers starting at `lo`. */
  function Range(lo: int, n: nat): (r: seq<int>)
    decreases n
    ensures |r| == n
    ensures forall i :: 0 <= i < n ==> r[i] == lo + i
  {
    if n == 0 then [] else [lo] + Range(lo + 1, n - 1)
  }

  /** The first page number shown in the button window. */
  function WindowStart(totalPages: int, currentPage: int): int {
    if totalPages <= MaxPageButtons then 1
    else if currentPage <= 3 then 1
    else if currentPage >= totalPages - 2 then totalPages - 4
    else currentPage - 2
  }

  /** The page-number buttons, `[...Array(Math.min(5, totalPages))].map(...)`.
      A negative length would make `Array` throw. */
  function PageNumbers(totalPages: int, currentPage: int): seq<int>
    requires totalPages >= 0
  {
    Range(WindowStart(totalPages, currentPage), Min(MaxPageButtons, totalPages))
  }

  /** The window has min(5, totalPages) buttons, all naming real pages,
      consecutive, and includes the current page when that is a real page. */
  lemma PageWindow(totalPages: int, currentPage: int)
    requires totalPages >= 0
    ensures var r := PageNumbers(totalPages, currentPage);
      && |r| == Min(MaxPageButtons, totalPages)
      && (forall i :: 0 <= i < |r| ==> 1 <= r[i] <= totalPages)
      && (forall i :: 0 <= i < |r| - 1 ==> r[i + 1] == r[i] + 1)
      && (1 <= currentPage <= totalPages ==> currentPage in r)
  {
    var r := PageNumbers(totalPages, currentPage);
    var lo := WindowStart(totalPages, currentPage);
    if 1 <= currentPage <= totalPages {
      assert r[currentPage - lo] == currentPage;
    }
  }

  /** The paging bar is shown exactly when its window holds more than one
      page button. */
  lemma PagingShownIffSeveralButtons(p: Pagination)
    requires p.totalPages >= 0
    ensures PagingShown(p) <==> |PageNumbers(p.totalPages, p.currentPage)| > 1
  {
  }

  class ProductsPage {
    var filters: Filters
    var searchParams: seq<(string, string)>
    var pagination: Pagination

    constructor(url: seq<(string, string)>, parsedPage: Option<int>)
      ensures filters == InitialFilters(url, parsedPage)
      ensures searchParams == url && pagination == InitialPagination
    {
      filters := InitialFilters(url, parsedPage);
      searchParams := url;
      pagination := InitialPagination;
    }

    method HandleFilterChange(key: FilterKey, value: string)
      modifies this
      ensures filters == WithFilter(old(filters), key, value)
      ensures searchParams == QueryOf(Entries(filters))
      ensures pagination == old(pagination)
    {
      filters := WithFilter(filters, key, value);
      searchParams := UpdateURL(filters);
    }

    /** handlePageChange changes only the page (and the query that mirrors it). */
    method HandlePageChange(newPage: int)
      modifies this
      ensures filters == old(filters).(page := newPage)
      ensures searchParams == QueryOf(Entries(filters))
      ensures pagination == old(pagination)
    {
      filters := filters.(page := newPage);
      searchParams := UpdateURL(filters);
    }

    /** clearFilters restores the defaults and empties the query. */
    method ClearFilters()
      modifies this
      ensures filters == DefaultFilters && searchParams == []
      ensures pagination == old(pagination)
    {
      filters := DefaultFilters;
      searchParams := [];
    }

    /** The pagination part of a successful products fetch. */
    method ApplyProductsResponse(total: int, totalPages: int, currentPage: int)
      modifies this
      ensures pagination == PaginationOf(total, totalPages, currentPage)
      ensures filters == old(filters) && searchParams == old(searchParams)
    {
      pagination := Pagination(total, totalPages, currentPage, currentPage < totalPages, currentPage > 1);
    }

    /** A product card's button adds one unit. */
    method HandleAddToCart(cart: CartStore, p: Product) returns (outcome: AddOutcome)
      modifies cart
      ensures Change(cart.items, outcome) == AddStep(old(cart.items), p, 1)
    {
      outcome := cart.AddToCart(p);
    }
  }
}
