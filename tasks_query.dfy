/** `useTasksQuery` (src/features/tasks/queries/use-tasks-query.ts): the same
    shape as the projects hook, with a priority filter and other defaults. */
module TasksQuery {
  import opened Wrappers
  import opened Text
  import opened Paging
  import opened TaskTypes
  import opened TaskService

  /** `UseTasksQueryProps`: every field may be left out. */
  datatype Props = Props(
    name: Option<string>, status: Option<Choice<TaskStatus>>,
    priority: Option<Choice<TaskPriority>>, perPage: Option<int>)

  /** The normalised filters, the second element of the query key. */
  datatype Filters = Filters(name: Option<string>, status: Choice<TaskStatus>, priority: Choice<TaskPriority>, perPage: int)

  predicate ValidFilters(f: Filters) {
    f.name.None? || (f.name.value != [] && IsTrimmed(f.name.value))
  }

  /** The filters memo: the name trimmed (blank means absent), the status
      defaulting to "todo" and the priority to "all" only when left out, the
      page size defaulting to 10. */
  function NormalizeFilters(p: Props): (f: Filters)
    ensures ValidFilters(f)
    ensures f.name == NormalizedName(p.name)
    ensures p.status.None? ==> f.status == Only(Todo)
    ensures p.status.Some? ==> f.status == p.status.value
    ensures p.priority.None? ==> f.priority == All
    ensures p.priority.Some? ==> f.priority == p.priority.value
    ensures f.perPage == p.perPage.GetOr(DefaultPerPage)
  {
    Filters(NormalizedName(p.name), p.status.GetOr(Only(Todo)), p.priority.GetOr(All), p.perPage.GetOr(DefaultPerPage))
  }

  function AsProps(f: Filters): Props {
    Props(f.name, Some(f.status), Some(f.priority), Some(f.perPage))
  }

  /** Filters handed back in as props come out unchanged. */
  lemma NormalizeIdempotent(f: Filters)
    requires ValidFilters(f)
    ensures NormalizeFilters(AsProps(f)) == f
  {
  }

  /** Surrounding whitespace does not change the key; a blank name is the
      same key as no name. */
  lemma SameKeyAfterTrim(p: Props, name: string)
    ensures NormalizeFilters(p.(name := Some(name))) == NormalizeFilters(p.(name := Some(Trim(name))))
    ensures IsBlank(name) ==> NormalizeFilters(p.(name := Some(name))) == NormalizeFilters(p.(name := None))
  {
    NormalizedNameStable(Some(name));
  }

  /** The `queryFn`: the filters spread, with the page number added. */
  function PageParams(f: Filters, page: int): (r: GetTasksParams)
    ensures r.name == f.name && r.status == Some(f.status) && r.priority == Some(f.priority)
    ensures r.page == Some(page) && r.perPage == Some(f.perPage)
  {
    GetTasksParams(f.name, Some(f.status), Some(f.priority), Some(page), Some(f.perPage))
  }

  /** What page `page` of a key asks the server for. */
  lemma PageQuery(f: Filters, page: int)
    requires ValidFilters(f)
    ensures var q := FetchTasksRequest(PageParams(f, page)).params;
            q["page"] == Number(page) && q["perPage"] == Number(f.perPage)
            && ("name" in q <==> f.name.Some?) && (f.name.Some? ==> q["name"] == Text(f.name.value))
            && ("status" in q <==> f.status.Only?)
            && (f.status.Only? ==> q["status"] == Text(StatusName(f.status.value)))
            && ("priority" in q <==> f.priority.Only?)
            && (f.priority.Only? ==> q["priority"] == Text(PriorityName(f.priority.value)))
  {
  }

  /** Different keys never share a request. */
  lemma KeysFetchDistinctPages(f1: Filters, f2: Filters, page1: int, page2: int)
    requires ValidFilters(f1) && ValidFilters(f2)
    ensures FetchTasksRequest(PageParams(f1, page1)) == FetchTasksRequest(PageParams(f2, page2))
            <==> f1 == f2 && page1 == page2
  {
    SameRequest(PageParams(f1, page1), PageParams(f2, page2));
  }

  /** With no props the list asks for "todo" tasks of any priority, ten at a
      time, from page 1. */
  lemma DefaultFirstPage()
    ensures FetchTasksRequest(PageParams(NormalizeFilters(Props(None, None, None, None)), InitialPageParam))
            == GetRequest(TasksUrl, map["status" := Text("todo"), "page" := Number(1), "perPage" := Number(10)])
  {
  }
}
