/** The infinite-list engine both overviews sit on, reduced to what the two
    list hooks decide: the first page parameter, the next-page rule, the
    flattening of pages, and the order pages are loaded in. How the library
    keys, restarts and discards requests is stated as the engine's own
    rules: a key change, a refetch or an invalidation restart from page 1,
    and a response that is not the one in flight is dropped. */
module InfiniteList {
  import opened Wrappers
  import opened Paging

  /** The page parameter the next fetch asks for: 1 before any page, then
      the next-page rule applied to the last page loaded. */
  function Pending<T>(pages: seq<Page<T>>): (r: Option<int>)
    ensures pages == [] ==> r == Some(InitialPageParam)
    ensures pages != [] ==> r == NextPageParam(pages[|pages| - 1].pagination)
  {
    if pages == [] then Some(InitialPageParam) else NextPageParam(pages[|pages| - 1].pagination)
  }

  /** The loaded pages were asked for in order: the first with parameter 1,
      each later one with the parameter the page before it gave. */
  predicate Chained<T>(pages: seq<Page<T>>, params: seq<int>) {
    |pages| == |params|
    && (params != [] ==> params[0] == InitialPageParam)
    && forall i :: 0 < i < |params| ==> NextPageParam(pages[i - 1].pagination) == Some(params[i])
  }

  /** Loading the pending page keeps the chain. */
  lemma ChainedAppend<T>(pages: seq<Page<T>>, params: seq<int>, p: Page<T>, param: int)
    requires Chained(pages, params) && Pending(pages) == Some(param)
    ensures Chained(pages + [p], params + [param])
  {
    var pages', params' := pages + [p], params + [param];
    forall i | 0 < i < |params'|
      ensures NextPageParam(pages'[i - 1].pagination) == Some(params'[i])
    {
      if i < |params| {
        assert pages'[i - 1] == pages[i - 1] && params'[i] == params[i];
      } else {
        assert pages'[i - 1] == pages[|pages| - 1];
      }
    }
  }

  /** The server reports, in each page, the page number it was asked for. */
  predicate Echoes<T>(pages: seq<Page<T>>, params: seq<int>)
    requires |pages| == |params|
  {
    forall i :: 0 <= i < |pages| ==> pages[i].pagination.currentPage == params[i]
  }

  lemma {:induction false} ConsecutiveAt<T>(pages: seq<Page<T>>, params: seq<int>, i: nat)
    requires Chained(pages, params) && Echoes(pages, params) && i < |params|
    ensures params[i] == i + 1
  {
    if i > 0 {
      ConsecutiveAt(pages, params, i - 1);
      assert NextPageParam(pages[i - 1].pagination) == Some(params[i]);
    }
  }

  /** With a server that echoes the page asked for, pages 1, 2, 3, ... are
      loaded in that order, none twice, and never more than the server's
      page count. */
  lemma ConsecutivePages<T>(pages: seq<Page<T>>, params: seq<int>, totalPages: int)
    requires Chained(pages, params) && Echoes(pages, params)
    requires forall i :: 0 <= i < |pages| ==> pages[i].pagination.totalPages == totalPages
    ensures forall i :: 0 <= i < |params| ==> params[i] == i + 1
    ensures |pages| <= 1 || |pages| <= totalPages
  {
    forall i | 0 <= i < |params|
      ensures params[i] == i + 1
    {
      ConsecutiveAt(pages, params, i);
    }
    if |pages| > 1 {
      var n := |pages|;
      assert NextPageParam(pages[n - 2].pagination) == Some(params[n - 1]);
    }
  }

  /** One infinite query: its key, the pages loaded so far with the
      parameters they were asked for, the parameter of the request in
      flight, and whether the last request failed. */
  class InfiniteQuery<K(==), T> {
    var key: K
    var pages: seq<Page<T>>
    var pageParams: seq<int>
    var fetching: Option<int>
    var isError: bool

    predicate Valid()
      reads this
    {
      Chained(pages, pageParams) && (fetching.Some? ==> fetching == Pending(pages))
    }

    /** `data.pages.flatMap((page) => page.data)` */
    function Items(): seq<T>
      reads this
    {
      Flatten(pages)
    }

    /** `hasNextPage`: the next-page rule gives a parameter for the last page. */
    function HasNextPage(): bool
      reads this
    {
      pages != [] && NextPageParam(pages[|pages| - 1].pagination).Some?
    }

    /** `isFetchingNextPage`: a request is in flight and pages are shown. */
    function IsFetchingNextPage(): bool
      reads this
    {
      fetching.Some? && pages != []
    }

    /** `isLoading`: the first page is in flight. */
    function IsLoading(): bool
      reads this
    {
      fetching.Some? && pages == []
    }

    function IsFetching(): bool
      reads this
    {
      fetching.Some?
    }

    /** Mounting starts the request for page 1. */
    constructor (key: K)
      ensures Valid() && this.key == key
      ensures pages == [] && fetching == Some(InitialPageParam) && !isError
    {
      this.key := key;
      pages := [];
      pageParams := [];
      fetching := Some(InitialPageParam);
      isError := false;
    }

    /** A new key, a refetch or an invalidation: the pages are dropped and
        page 1 is requested. */
    method Restart(newKey: K)
      modifies this
      ensures Valid() && key == newKey
      ensures pages == [] && Items() == [] && fetching == Some(InitialPageParam) && !isError
    {
      key := newKey;
      pages := [];
      pageParams := [];
      fetching := Some(InitialPageParam);
      isError := false;
    }

    /** The sentinel's callback: fetch the next page only when in view, a
        next page exists and none is in flight. */
    method OnIntersect(isIntersecting: bool)
      requires Valid()
      modifies this`fetching
      ensures Valid()
      ensures fetching == if ShouldLoadMore(isIntersecting, HasNextPage(), old(IsFetchingNextPage()))
                          then Pending(pages) else old(fetching)
    {
      if ShouldLoadMore(isIntersecting, HasNextPage(), IsFetchingNextPage()) {
        fetching := Pending(pages);
      }
    }

    /** A response arrives. Only the one in flight for the current key is
        kept: its page is appended, and its items follow all earlier ones. */
    method Receive(forKey: K, param: int, page: Page<T>)
      requires Valid()
      modifies this
      ensures Valid()
      ensures key == old(key)
      ensures forKey == old(key) && old(fetching) == Some(param) ==>
                pages == old(pages) + [page] && pageParams == old(pageParams) + [param]
                && Items() == old(Items()) + page.data && fetching.None? && !isError
      ensures !(forKey == old(key) && old(fetching) == Some(param)) ==>
                pages == old(pages) && pageParams == old(pageParams) && fetching == old(fetching) && isError == old(isError)
    {
      if forKey == key && fetching == Some(param) {
        ChainedAppend(pages, pageParams, page, param);
        FlattenAppend(pages, page);
        pages := pages + [page];
        pageParams := pageParams + [param];
        fetching := None;
        isError := false;
      }
    }

    /** The request in flight fails: nothing is loaded and the error shows. */
    method Fail(forKey: K, param: int)
      requires Valid()
      modifies this`fetching, this`isError
      ensures Valid()
      ensures forKey == key && old(fetching) == Some(param) ==> fetching.None? && isError
      ensures !(forKey == key && old(fetching) == Some(param)) ==> fetching == old(fetching) && isError == old(isError)
    {
      if forKey == key && fetching == Some(param) {
        fetching := None;
        isError := true;
      }
    }
  }

  /** What an overview screen shows below its filters for a query state. */
  function ScreenView<K, T>(q: InfiniteQuery<K, T>): (v: ListView)
    reads q
    ensures v == Skeleton <==> q.IsLoading() || (q.Items() == [] && q.IsFetching())
    ensures v == ErrorWithRetry <==> v != Skeleton && q.isError
    ensures v == EmptyState <==> v != Skeleton && !q.isError && q.Items() == []
    ensures v.ItemList? ==> q.Items() != [] && v.loadingMore == q.IsFetchingNextPage()
  {
    View(IsInitialLoading(q.IsLoading(), |q.Items()|, q.IsFetching()), q.isError, |q.Items()|, q.IsFetchingNextPage())
  }
}
