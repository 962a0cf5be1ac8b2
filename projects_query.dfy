/** `useProjectsQuery` (src/features/projects/queries/use-projects-query.ts):
    the hook's props are normalised into the filters that form the query key,
    and every page is fetched with those filters and its page number. */
module ProjectsQuery {
  import opened Wrappers
  import opened Text
  import opened Paging
  import opened ProjectTypes
  import opened ProjectService

  /** `UseProjectsQueryProps`: every field may be left out. */
  datatype Props = Props(name: Option<string>, status: Option<Choice<ProjectStatus>>, perPage: Option<int>)

  /** The normalised filters, the second element of the query key. */
  datatype Filters = Filters(name: Option<string>, status: Choice<ProjectStatus>, perPage: int)

  /** Filters as normalisation produces them: a name, when present, is
      trimmed and not empty. */
  predicate ValidFilters(f: Filters) {
    f.name.None? || (f.name.value != [] && IsTrimmed(f.name.value))
  }

  /** The filters memo: the name trimmed (blank means absent), the status
      defaulting to "active" only when left out (an explicit "all" stays),
      the page size defaulting to 10. */
  function NormalizeFilters(p: Props): (f: Filters)
    ensures ValidFilters(f)
    ensures f.name == NormalizedName(p.name)
    ensures p.status.None? ==> f.status == Only(Active)
    ensures p.status.Some? ==> f.status == p.status.value
    ensures f.perPage == p.perPage.GetOr(DefaultPerPage)
  {
    Filters(NormalizedName(p.name), p.status.GetOr(Only(Active)), p.perPage.GetOr(DefaultPerPage))
  }

  /** Filters handed back in as props come out unchanged. */
  function AsProps(f: Filters): Props {
    Props(f.name, Some(f.status), Some(f.perPage))
  }

  lemma NormalizeIdempotent(f: Filters)
    requires ValidFilters(f)
    ensures NormalizeFilters(AsProps(f)) == f
  {
  }

  /** A name typed with surrounding whitespace, or one that is only
      whitespace, shares its key with the trimmed or absent name. */
  lemma SameKeyAfterTrim(p: Props, name: string)
    ensures NormalizeFilters(p.(name := Some(name))) == NormalizeFilters(p.(name := Some(Trim(name))))
    ensures IsBlank(name) ==> NormalizeFilters(p.(name := Some(name))) == NormalizeFilters(p.(name := None))
  {
    NormalizedNameStable(Some(name));
  }

  /** The `queryFn`: the filters spread, with the page number added. */
  function PageParams(f: Filters, page: int): (r: GetProjectsParams)
    ensures r.name == f.name && r.status == Some(f.status)
    ensures r.page == Some(page) && r.perPage == Some(f.perPage)
  {
    GetProjectsParams(f.name, Some(f.status), Some(page), Some(f.perPage))
  }

  /** What page `page` of a key asks the server for: its number, the page
      size, the name when there is one, and the status unless it is "all". */
  lemma PageQuery(f: Filters, page: int)
    requires ValidFilters(f)
    ensures var q := FetchProjectsRequest(PageParams(f, page)).params;
            q["page"] == Number(page) && q["perPage"] == Number(f.perPage)
            && ("name" in q <==> f.name.Some?) && (f.name.Some? ==> q["name"] == Text(f.name.value))
            && ("status" in q <==> f.status.Only?)
            && (f.status.Only? ==> q["status"] == Text(StatusName(f.status.value)))
  {
  }

  /** Different keys never share a request: the filters of a key, together
      with the page number, are recovered from what is sent. */
  lemma KeysFetchDistinctPages(f1: Filters, f2: Filters, page1: int, page2: int)
    requires ValidFilters(f1) && ValidFilters(f2)
    ensures FetchProjectsRequest(PageParams(f1, page1)) == FetchProjectsRequest(PageParams(f2, page2))
            <==> f1 == f2 && page1 == page2
  {
    SameRequest(PageParams(f1, page1), PageParams(f2, page2));
  }

  /** With no props the list shows active projects, ten at a time, from page 1. */
  lemma DefaultFirstPage()
    ensures FetchProjectsRequest(PageParams(NormalizeFilters(Props(None, None, None)), InitialPageParam))
            == GetRequest(ProjectsUrl, map["status" := Text("active"), "page" := Number(1), "perPage" := Number(10)])
  {
  }
}
