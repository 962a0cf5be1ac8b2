/** `fetchProjects` (src/features/projects/services/project-service.ts): the
    GET request for one page of the signed-in user's projects. */
module ProjectService {
  import opened Wrappers
  import opened Paging
  import opened ProjectTypes

  const ProjectsUrl := "/api/projects"

  /** `GetProjectsParams`: every field may be left out. */
  datatype GetProjectsParams = GetProjectsParams(
    name: Option<string>, status: Option<Choice<ProjectStatus>>,
    page: Option<int>, perPage: Option<int>)

  /** The default argument `params = {}`. */
  const NoParams := GetProjectsParams(None, None, None, None)

  /** The request `fetchProjects(p)` sends: a non-empty name, a status other
      than `"all"`, and always a page (default 1) and a page size (default 10). */
  function FetchProjectsRequest(p: GetProjectsParams): (r: GetRequest)
    ensures r.url == ProjectsUrl
    ensures "page" in r.params && r.params["page"] == Number(p.page.GetOr(DefaultPage))
    ensures "perPage" in r.params && r.params["perPage"] == Number(p.perPage.GetOr(DefaultPerPage))
    ensures "name" in r.params <==> Truthy(p.name)
    ensures "name" in r.params ==> r.params["name"] == Text(p.name.value)
    ensures "status" in r.params <==> Chosen(p.status).Some?
    ensures "status" in r.params ==> r.params["status"] == Text(StatusName(Chosen(p.status).value))
    ensures r.params.Keys <= {"name", "status", "page", "perPage"}
  {
    var base := map["page" := Number(p.page.GetOr(DefaultPage)), "perPage" := Number(p.perPage.GetOr(DefaultPerPage))];
    var named := if Truthy(p.name) then base["name" := Text(p.name.value)] else base;
    var params := if Chosen(p.status).Some? then named["status" := Text(StatusName(Chosen(p.status).value))] else named;
    GetRequest(ProjectsUrl, params)
  }

  /** What of `p` reaches the server: empty names and `"all"` dropped,
      defaults filled in. */
  function Effective(p: GetProjectsParams): GetProjectsParams {
    GetProjectsParams(
      if Truthy(p.name) then p.name else None,
      if Chosen(p.status).Some? then Some(Only(Chosen(p.status).value)) else None,
      Some(p.page.GetOr(DefaultPage)),
      Some(p.perPage.GetOr(DefaultPerPage)))
  }

  /** How the server reads the query back. */
  function FromQuery(q: QueryParams): GetProjectsParams {
    GetProjectsParams(
      if "name" in q && q["name"].Text? then Some(q["name"].text) else None,
      if "status" in q && q["status"].Text? && StatusOfName(q["status"].text).Some?
      then Some(Only(StatusOfName(q["status"].text).value)) else None,
      if "page" in q && q["page"].Number? then Some(q["page"].number) else None,
      if "perPage" in q && q["perPage"].Number? then Some(q["perPage"].number) else None)
  }

  /** The query loses nothing but empty names, `"all"` and the absence of
      page fields. */
  lemma QueryRoundTrip(p: GetProjectsParams)
    ensures FromQuery(FetchProjectsRequest(p).params) == Effective(p)
  {
    if Chosen(p.status).Some? {
      StatusNameRoundTrip(Chosen(p.status).value);
    }
  }

  /** Two argument objects send the same request exactly when they agree on
      what reaches the server. */
  lemma SameRequest(p1: GetProjectsParams, p2: GetProjectsParams)
    ensures FetchProjectsRequest(p1) == FetchProjectsRequest(p2) <==> Effective(p1) == Effective(p2)
  {
    QueryRoundTrip(p1);
    QueryRoundTrip(p2);
    if Effective(p1) == Effective(p2) {
      assert FetchProjectsRequest(p1).params == FetchProjectsRequest(p2).params;
    }
  }

  /** No arguments: only the default page and page size. */
  lemma DefaultRequest()
    ensures FetchProjectsRequest(NoParams) == GetRequest(ProjectsUrl, map["page" := Number(1), "perPage" := Number(10)])
  {
  }

  /** Every given field is passed through. */
  lemma PassThroughRequest()
    ensures FetchProjectsRequest(GetProjectsParams(Some("Project"), Some(Only(Active)), Some(2), Some(5)))
            == GetRequest(ProjectsUrl, map["name" := Text("Project"), "status" := Text("active"), "page" := Number(2), "perPage" := Number(5)])
  {
  }

  /** `"all"` sends no status. */
  lemma AllStatusOmitted(page: Option<int>, perPage: Option<int>)
    ensures "status" !in FetchProjectsRequest(GetProjectsParams(None, Some(All), page, perPage)).params
  {
  }
}
