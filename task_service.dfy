/** The task endpoints (src/features/tasks/services/task-service.ts): one page
    of the signed-in user's tasks, creating a task under a project, and
    deleting a task. */
module TaskService {
  import opened Wrappers
  import opened Paging
  import opened TaskTypes

  const TasksUrl := "/api/projects/tasks/user"

  /** `GetTasksParams`: every field may be left out. */
  datatype GetTasksParams = GetTasksParams(
    name: Option<string>, status: Option<Choice<TaskStatus>>, priority: Option<Choice<TaskPriority>>,
    page: Option<int>, perPage: Option<int>)

  /** The default argument `params = {}`. */
  const NoParams := GetTasksParams(None, None, None, None, None)

  /** The request `fetchTasks(p)` sends: a non-empty name, a status and a
      priority other than `"all"`, and always a page (default 1) and a page
      size (default 10). */
  function FetchTasksRequest(p: GetTasksParams): (r: GetRequest)
    ensures r.url == TasksUrl
    ensures "page" in r.params && r.params["page"] == Number(p.page.GetOr(DefaultPage))
    ensures "perPage" in r.params && r.params["perPage"] == Number(p.perPage.GetOr(DefaultPerPage))
    ensures "name" in r.params <==> Truthy(p.name)
    ensures "name" in r.params ==> r.params["name"] == Text(p.name.value)
    ensures "status" in r.params <==> Chosen(p.status).Some?
    ensures "status" in r.params ==> r.params["status"] == Text(StatusName(Chosen(p.status).value))
    ensures "priority" in r.params <==> Chosen(p.priority).Some?
    ensures "priority" in r.params ==> r.params["priority"] == Text(PriorityName(Chosen(p.priority).value))
    ensures r.params.Keys <= {"name", "status", "priority", "page", "perPage"}
  {
    var base := map["page" := Number(p.page.GetOr(DefaultPage)), "perPage" := Number(p.perPage.GetOr(DefaultPerPage))];
    var named := if Truthy(p.name) then base["name" := Text(p.name.value)] else base;
    var withStatus := if Chosen(p.status).Some? then named["status" := Text(StatusName(Chosen(p.status).value))] else named;
    var params := if Chosen(p.priority).Some? then withStatus["priority" := Text(PriorityName(Chosen(p.priority).value))] else withStatus;
    GetRequest(TasksUrl, params)
  }

  /** What of `p` reaches the server: empty names and `"all"` dropped,
      defaults filled in. */
  function Effective(p: GetTasksParams): GetTasksParams {
    GetTasksParams(
      if Truthy(p.name) then p.name else None,
      if Chosen(p.status).Some? then Some(Only(Chosen(p.status).value)) else None,
      if Chosen(p.priority).Some? then Some(Only(Chosen(p.priority).value)) else None,
      Some(p.page.GetOr(DefaultPage)),
      Some(p.perPage.GetOr(DefaultPerPage)))
  }

  /** How the server reads the query back. */
  function FromQuery(q: QueryParams): GetTasksParams {
    GetTasksParams(
      if "name" in q && q["name"].Text? then Some(q["name"].text) else None,
      if "status" in q && q["status"].Text? && StatusOfName(q["status"].text).Some?
      then Some(Only(StatusOfName(q["status"].text).value)) else None,
      if "priority" in q && q["priority"].Text? && PriorityOfName(q["priority"].text).Some?
      then Some(Only(PriorityOfName(q["priority"].text).value)) else None,
      if "page" in q && q["page"].Number? then Some(q["page"].number) else None,
      if "perPage" in q && q["perPage"].Number? then Some(q["perPage"].number) else None)
  }

  /** The query loses nothing but empty names, `"all"` and the absence of
      page fields. */
  lemma QueryRoundTrip(p: GetTasksParams)
    ensures FromQuery(FetchTasksRequest(p).params) == Effective(p)
  {
    if Chosen(p.status).Some? {
      StatusNameRoundTrip(Chosen(p.status).value);
    }
    if Chosen(p.priority).Some? {
      PriorityNameRoundTrip(Chosen(p.priority).value);
    }
  }

  /** Two argument objects send the same request exactly when they agree on
      what reaches the server. */
  lemma SameRequest(p1: GetTasksParams, p2: GetTasksParams)
    ensures FetchTasksRequest(p1) == FetchTasksRequest(p2) <==> Effective(p1) == Effective(p2)
  {
    QueryRoundTrip(p1);
    QueryRoundTrip(p2);
    if Effective(p1) == Effective(p2) {
      assert FetchTasksRequest(p1).params == FetchTasksRequest(p2).params;
    }
  }

  /** No arguments: only the default page and page size. */
  lemma DefaultRequest()
    ensures FetchTasksRequest(NoParams) == GetRequest(TasksUrl, map["page" := Number(1), "perPage" := Number(10)])
  {
  }

  /** Every given field is passed through. */
  lemma PassThroughRequest()
    ensures FetchTasksRequest(GetTasksParams(Some("Task"), Some(Only(InProgress)), Some(Only(High)), Some(2), Some(5)))
            == GetRequest(TasksUrl, map["name" := Text("Task"), "status" := Text("in_progress"), "priority" := Text("high"),
                                        "page" := Number(2), "perPage" := Number(5)])
  {
  }

  /** `"all"` sends neither status nor priority. */
  lemma AllFiltersOmitted(name: Option<string>, page: Option<int>, perPage: Option<int>)
    ensures var q := FetchTasksRequest(GetTasksParams(name, Some(All), Some(All), page, perPage)).params;
            "status" !in q && "priority" !in q
  {
  }

  /** A POST request with its body. */
  datatype PostRequest = PostRequest(url: string, body: CreateTaskPayload)

  const CreatePrefix := "/api/projects/"
  const CreateSuffix := "/tasks"
  const DeletePrefix := "/api/projects/tasks/"

  /** `/api/projects/${projectId}/tasks` */
  function CreateTaskUrl(projectId: string): string {
    CreatePrefix + projectId + CreateSuffix
  }

  /** `createTask(projectId, payload)`: the payload is posted unchanged to the
      project's task collection. */
  function CreateTaskRequest(projectId: string, payload: CreateTaskPayload): (r: PostRequest)
    ensures r.body == payload
    ensures ProjectOfCreateUrl(r.url) == Some(projectId)
  {
    CreateUrlRoundTrip(projectId);
    PostRequest(CreateTaskUrl(projectId), payload)
  }

  /** The project id a create URL names, if it has the create shape. */
  function ProjectOfCreateUrl(url: string): Option<string> {
    if |url| >= |CreatePrefix| + |CreateSuffix| && url[..|CreatePrefix|] == CreatePrefix
       && url[|url| - |CreateSuffix|..] == CreateSuffix
    then Some(url[|CreatePrefix|..|url| - |CreateSuffix|])
    else None
  }

  lemma CreateUrlRoundTrip(projectId: string)
    ensures ProjectOfCreateUrl(CreateTaskUrl(projectId)) == Some(projectId)
  {
    var url := CreateTaskUrl(projectId);
    assert url[..|CreatePrefix|] == CreatePrefix;
    assert url[|url| - |CreateSuffix|..] == CreateSuffix;
    assert url[|CreatePrefix|..|url| - |CreateSuffix|] == projectId;
  }

  /** Different projects get different create URLs. */
  lemma CreateTaskUrlInjective(a: string, b: string)
    ensures CreateTaskUrl(a) == CreateTaskUrl(b) ==> a == b
  {
    CreateUrlRoundTrip(a);
    CreateUrlRoundTrip(b);
  }

  /** `/api/projects/tasks/${taskId}`: the DELETE request's URL. */
  function DeleteTaskUrl(taskId: string): (url: string)
    ensures |url| == |DeletePrefix| + |taskId|
    ensures url[..|DeletePrefix|] == DeletePrefix && url[|DeletePrefix|..] == taskId
  {
    DeletePrefix + taskId
  }

  /** Different tasks get different delete URLs. */
  lemma DeleteTaskUrlInjective(a: string, b: string)
    ensures DeleteTaskUrl(a) == DeleteTaskUrl(b) ==> a == b
  {
  }
}
