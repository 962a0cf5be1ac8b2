/** The projects screen (src/features/projects/components/projects-overview.tsx):
    a status filter and a debounced search box feed the projects query; the
    loaded pages are shown flattened, with a sentinel that loads more. */
module ProjectsOverview {
  import opened Wrappers
  import opened Paging
  import opened ProjectTypes
  import opened ProjectsQuery
  import opened Debounce
  import opened InfiniteList

  const MaxBadges := 5

  /** The team badges of a card: the first five names, and a "+N more"
      count when there are more. */
  datatype Badges = Badges(names: seq<string>, more: Option<nat>)

  function TeamBadges(teams: seq<TeamMember>): (b: Badges)
    ensures |b.names| == if |teams| <= MaxBadges then |teams| else MaxBadges
    ensures forall i :: 0 <= i < |b.names| ==> b.names[i] == teams[i].name
    ensures b.more.Some? <==> |teams| > MaxBadges
    ensures b.more.Some? ==> b.more.value == |teams| - MaxBadges
  {
    var shown := if |teams| <= MaxBadges then teams else teams[..MaxBadges];
    Badges(seq(|shown|, i requires 0 <= i < |shown| => shown[i].name),
           if |teams| > MaxBadges then Some(|teams| - MaxBadges) else None)
  }

  /** Every member is either named or counted, never both. */
  lemma BadgesAccountForTeam(teams: seq<TeamMember>)
    ensures |TeamBadges(teams).names| + TeamBadges(teams).more.GetOr(0) == |teams|
  {
  }

  /** The props the screen hands the hook. */
  function QueryProps(status: Choice<ProjectStatus>, debouncedSearch: string): Props {
    Props(Some(debouncedSearch), Some(status), None)
  }

  /** The first key: active projects, no name, ten per page. */
  lemma InitialKey()
    ensures NormalizeFilters(QueryProps(Only(Active), "")) == Filters(None, Only(Active), DefaultPerPage)
  {
  }

  /** While the first page is in flight the skeleton shows, whatever else
      holds, and the sentinel cannot fire. */
  lemma FirstLoadShowsSkeleton<K, T>(q: InfiniteQuery<K, T>)
    requires q.IsLoading()
    ensures ScreenView(q) == Skeleton
  {
  }

  /** The screen's state: the status filter, the search box behind its
      debouncer, and the query. */
  class ProjectsScreen {
    var status: Choice<ProjectStatus>
    const search: Debouncer<string>
    const query: InfiniteQuery<Filters, Project>

    /** The key the hook derives from the status and the debounced search. */
    function Key(): Filters
      reads this, search
    {
      NormalizeFilters(QueryProps(status, search.debounced))
    }

    /** The query always runs under the key of the current filters. */
    predicate Valid()
      reads this, search, query
    {
      query.Valid() && query.key == Key()
    }

    /** `useState("active")`, `useState("")`, and the first fetch. */
    constructor ()
      ensures Valid() && fresh(search) && fresh(query)
      ensures status == Only(Active) && search.Snapshot() == Mount("")
      ensures query.key == Filters(None, Only(Active), DefaultPerPage) && query.pages == []
    {
      status := Only(Active);
      search := new Debouncer("");
      query := new InfiniteQuery(Filters(None, Only(Active), DefaultPerPage));
      new;
      assert search.debounced == "" by { assert search.Snapshot() == Mount(""); }
      InitialKey();
      assert Key() == query.key;
    }

    /** Restart the query when the key has changed. */
    method Sync()
      requires query.Valid()
      modifies query
      ensures Valid()
      ensures old(query.key) == Key() ==> query.pages == old(query.pages) && query.fetching == old(query.fetching)
                                          && query.isError == old(query.isError)
      ensures old(query.key) != Key() ==> query.pages == [] && query.fetching == Some(InitialPageParam) && !query.isError
    {
      if query.key != Key() {
        query.Restart(Key());
      }
    }

    /** Picking a status. */
    method SetStatus(s: Choice<ProjectStatus>)
      requires Valid()
      modifies this`status, query
      ensures Valid() && status == s
      ensures old(query.key) == Key() ==> query.pages == old(query.pages) && query.fetching == old(query.fetching)
                                          && query.isError == old(query.isError)
      ensures old(query.key) != Key() ==> query.pages == [] && query.fetching == Some(InitialPageParam) && !query.isError
    {
      status := s;
      Sync();
    }

    /** Typing into the search box: only the debouncer changes, so the list
        keeps its key until the text settles. */
    method TypeSearch(text: string)
      requires Valid()
      modifies search
      ensures Valid()
      ensures search.Snapshot() == AfterInput(old(search.Snapshot()), text)
    {
      search.Input(text);
    }

    /** One millisecond passes. */
    method Tick()
      requires Valid()
      modifies search, query
      ensures Valid()
      ensures search.Snapshot() == AfterTick(old(search.Snapshot()))
      ensures old(query.key) == Key() ==> query.pages == old(query.pages) && query.fetching == old(query.fetching)
                                          && query.isError == old(query.isError)
      ensures old(query.key) != Key() ==> query.pages == [] && query.fetching == Some(InitialPageParam) && !query.isError
    {
      search.Tick();
      Sync();
    }

    /** "Try again": `refetch`, which starts again from page 1. */
    method Retry()
      requires Valid()
      modifies query
      ensures Valid() && query.pages == [] && query.fetching == Some(InitialPageParam) && !query.isError
    {
      query.Restart(query.key);
    }

    /** The sentinel comes into view or leaves it. */
    method OnSentinel(isIntersecting: bool)
      requires Valid()
      modifies query`fetching
      ensures Valid()
      ensures query.fetching == if ShouldLoadMore(isIntersecting, query.HasNextPage(), old(query.IsFetchingNextPage()))
                                then Pending(query.pages) else old(query.fetching)
    {
      query.OnIntersect(isIntersecting);
    }

    method Render() returns (v: ListView)
      requires Valid()
      ensures v == ScreenView(query)
    {
      v := ScreenView(query);
    }
  }
}
