/** What the projects list and the tasks list share: the `"all"` filter
    choice, the server's pagination meta, the next-page rule of both list
    hooks, the flattening of loaded pages, and the rules the two overview
    screens use to show a list and to ask for more. */
module Paging {
  import opened Wrappers
  import opened Text

  /** A filter that is either `"all"` or one value. */
  datatype Choice<+T> = All | Only(value: T)

  datatype Pagination = Pagination(currentPage: int, totalPages: int, totalItems: int, perPage: int)

  /** One response of a list endpoint: `{ data, meta: { pagination } }`. */
  datatype Page<+T> = Page(data: seq<T>, pagination: Pagination)

  /** A query-string value as the HTTP client sends it. */
  datatype QueryValue = Text(text: string) | Number(number: int)

  type QueryParams = map<string, QueryValue>

  /** A GET request: the path and the query parameters the client sends. */
  datatype GetRequest = GetRequest(url: string, params: QueryParams)

  /** The page and page size the list services fall back to. */
  const DefaultPage := 1
  const DefaultPerPage := 10

  /** `value && value !== "all"`: the filter value a service sends, if any. */
  function Chosen<T>(c: Option<Choice<T>>): (r: Option<T>)
    ensures r.Some? <==> c.Some? && c.value.Only?
    ensures r.Some? ==> r.value == c.value.value
  {
    match c
    case Some(Only(v)) => Some(v)
    case _ => None
  }

  /** `name?.trim() || undefined`: the search text both list hooks send,
      trimmed, and absent when nothing but whitespace was typed. */
  function NormalizedName(name: Option<string>): (r: Option<string>)
    ensures r.None? <==> name.None? || IsBlank(name.value)
    ensures r.Some? ==> r.value == Trim(name.value) && r.value != [] && IsTrimmed(r.value)
  {
    match name
    case None => None
    case Some(n) => if Trim(n) == [] then None else Some(Trim(n))
  }

  /** A normalised name normalises to itself, and so does one typed with
      extra surrounding whitespace. */
  lemma NormalizedNameStable(name: Option<string>)
    ensures NormalizedName(NormalizedName(name)) == NormalizedName(name)
    ensures name.Some? ==> NormalizedName(Some(Trim(name.value))) == NormalizedName(name)
  {
  }

  /** The first page parameter (`initialPageParam: 1`). */
  const InitialPageParam := 1

  /** `getNextPageParam`: no next page once `currentPage >= totalPages`,
      otherwise the page after the current one, which never passes the last. */
  function NextPageParam(p: Pagination): (r: Option<int>)
    ensures r.None? <==> p.currentPage >= p.totalPages
    ensures r.Some? ==> r.value == p.currentPage + 1 && r.value <= p.totalPages
  {
    if p.currentPage >= p.totalPages then None else Some(p.currentPage + 1)
  }

  /** `pages.flatMap((page) => page.data)` */
  function Flatten<T>(pages: seq<Page<T>>): seq<T> {
    if pages == [] then [] else pages[0].data + Flatten(pages[1..])
  }

  /** The number of items over all pages. */
  function ItemCount<T>(pages: seq<Page<T>>): nat {
    if pages == [] then 0 else |pages[0].data| + ItemCount(pages[1..])
  }

  /** Loading one more page appends exactly its items, after all earlier ones. */
  lemma {:induction false} FlattenAppend<T>(pages: seq<Page<T>>, p: Page<T>)
    ensures Flatten(pages + [p]) == Flatten(pages) + p.data
  {
    if pages == [] {
      assert [p][1..] == [];
    } else {
      assert (pages + [p])[1..] == pages[1..] + [p];
      FlattenAppend(pages[1..], p);
    }
  }

  /** The flattened list has every item of every page and nothing else. */
  lemma {:induction false} FlattenContents<T>(pages: seq<Page<T>>, x: T)
    ensures |Flatten(pages)| == ItemCount(pages)
    ensures x in Flatten(pages) <==> exists i :: 0 <= i < |pages| && x in pages[i].data
  {
    if pages != [] {
      FlattenContents(pages[1..], x);
      if x in Flatten(pages[1..]) {
        var i :| 0 <= i < |pages[1..]| && x in pages[1..][i].data;
        assert x in pages[i + 1].data;
      }
      if exists i :: 0 <= i < |pages| && x in pages[i].data {
        var i :| 0 <= i < |pages| && x in pages[i].data;
        if i > 0 {
          assert x in pages[1..][i - 1].data;
        }
      }
    }
  }

  /** `data?.pages.flatMap((page) => page.data) ?? []`: nothing before the
      first response. */
  function Items<T>(data: Option<seq<Page<T>>>): (items: seq<T>)
    ensures data.None? ==> items == []
    ensures data.Some? ==> items == Flatten(data.value)
  {
    match data
    case None => []
    case Some(pages) => Flatten(pages)
  }

  /** The sentinel's callback fetches only when it is in view, a next page
      exists and none is already being fetched. */
  predicate ShouldLoadMore(isIntersecting: bool, hasNextPage: bool, isFetchingNextPage: bool) {
    isIntersecting && hasNextPage && !isFetchingNextPage
  }

  /** `isLoading || (items.length === 0 && isFetching)` */
  predicate IsInitialLoading(isLoading: bool, itemCount: nat, isFetching: bool) {
    isLoading || (itemCount == 0 && isFetching)
  }

  /** What an overview shows below its filters. */
  datatype ListView =
    | Skeleton
    | ErrorWithRetry
    | EmptyState
    | ItemList(loadingMore: bool)

  /** The view precedence: initial loading, then the error with its retry
      button, then the empty state, then the list (with the loading-more
      skeleton while the next page is fetched). */
  function View(isInitialLoading: bool, isError: bool, itemCount: nat, isFetchingNextPage: bool): (v: ListView)
    ensures v == Skeleton <==> isInitialLoading
    ensures v == ErrorWithRetry <==> !isInitialLoading && isError
    ensures v == EmptyState <==> !isInitialLoading && !isError && itemCount == 0
    ensures v.ItemList? <==> !isInitialLoading && !isError && itemCount > 0
    ensures v.ItemList? ==> v.loadingMore == isFetchingNextPage
  {
    if isInitialLoading then Skeleton
    else if isError then ErrorWithRetry
    else if itemCount == 0 then EmptyState
    else ItemList(isFetchingNextPage)
  }

  /** The sentinel is rendered only inside the list, so more pages are asked
      for only while items are shown and no error or loading view replaces
      them. */
  predicate SentinelFires(v: ListView, isIntersecting: bool, hasNextPage: bool, isFetchingNextPage: bool) {
    v.ItemList? && ShouldLoadMore(isIntersecting, hasNextPage, isFetchingNextPage)
  }

  lemma SentinelOnlyInList(isInitialLoading: bool, isError: bool, itemCount: nat, isFetchingNextPage: bool, isIntersecting: bool, hasNextPage: bool)
    ensures SentinelFires(View(isInitialLoading, isError, itemCount, isFetchingNextPage), isIntersecting, hasNextPage, isFetchingNextPage)
            ==> !isInitialLoading && !isError && itemCount > 0 && !isFetchingNextPage && hasNextPage
  {
  }
}
