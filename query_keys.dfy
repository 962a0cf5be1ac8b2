/** The query cache keys of the client and the prefix match used to
    invalidate them: `["projects", filters]`, `["tasks", filters]`,
    `["project-options"]` and `["profile"]`. */
module QueryKeys {
  import ProjectsQuery
  import TasksQuery

  datatype QueryKey =
    | ProjectsKey(projectFilters: ProjectsQuery.Filters)
    | TasksKey(taskFilters: TasksQuery.Filters)
    | ProjectOptionsKey
    | ProfileKey

  /** The first element of a key. */
  function Root(k: QueryKey): string {
    match k
    case ProjectsKey(_) => "projects"
    case TasksKey(_) => "tasks"
    case ProjectOptionsKey => "project-options"
    case ProfileKey => "profile"
  }

  /** `invalidateQueries({ queryKey: [root] })`: the keys the prefix matches. */
  function Invalidated(keys: set<QueryKey>, root: string): (r: set<QueryKey>)
    ensures r <= keys
    ensures forall k :: k in keys ==> (k in r <==> Root(k) == root)
  {
    set k | k in keys && Root(k) == root
  }

  /** Invalidating `["tasks"]` reaches every task list, whatever its
      filters, and nothing else. */
  lemma TasksInvalidation(keys: set<QueryKey>)
    ensures forall k :: k in keys && k.TasksKey? ==> k in Invalidated(keys, "tasks")
    ensures forall k :: k in Invalidated(keys, "tasks") ==> k.TasksKey?
  {
  }
}
