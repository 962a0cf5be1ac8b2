/** The task entities the client reads and writes (src/features/tasks/types/task-types.ts). */
module TaskTypes {
  import opened Wrappers

  /** Six spellings, two of them for "in progress"; the create form offers
      only three of them. */
  datatype TaskStatus = Todo | InProgress | InProgressHyphen | InReview | Done | TaskCompleted

  datatype TaskPriority = Low | Medium | High | Critical

  function StatusName(s: TaskStatus): string {
    match s
    case Todo => "todo"
    case InProgress => "in_progress"
    case InProgressHyphen => "in-progress"
    case InReview => "in_review"
    case Done => "done"
    case TaskCompleted => "completed"
  }

  function StatusOfName(name: string): (r: Option<TaskStatus>)
    ensures r.Some? ==> StatusName(r.value) == name
  {
    if name == "todo" then Some(Todo)
    else if name == "in_progress" then Some(InProgress)
    else if name == "in-progress" then Some(InProgressHyphen)
    else if name == "in_review" then Some(InReview)
    else if name == "done" then Some(Done)
    else if name == "completed" then Some(TaskCompleted)
    else None
  }

  /** Every status has its own spelling. */
  lemma StatusNameRoundTrip(s: TaskStatus)
    ensures StatusOfName(StatusName(s)) == Some(s)
  {
    match s
    case Todo =>
    case InProgress => assert "in_progress"[0] != "todo"[0];
    case InProgressHyphen => assert "in-progress"[2] != "in_progress"[2] && "in-progress"[0] != "todo"[0];
    case InReview => assert "in_review"[3] != "in_progress"[3] && "in_review"[2] != "in-progress"[2] && "in_review"[0] != "todo"[0];
    case Done => assert "done"[0] != "todo"[0] && "done"[0] != "in_progress"[0] && "done"[0] != "in-progress"[0] && "done"[0] != "in_review"[0];
    case TaskCompleted =>
      assert "completed"[0] != "todo"[0] && "completed"[0] != "in_progress"[0];
      assert "completed"[0] != "in-progress"[0] && "completed"[0] != "in_review"[0] && "completed"[0] != "done"[0];
  }

  function PriorityName(p: TaskPriority): string {
    match p
    case Low => "low"
    case Medium => "medium"
    case High => "high"
    case Critical => "critical"
  }

  function PriorityOfName(name: string): (r: Option<TaskPriority>)
    ensures r.Some? ==> PriorityName(r.value) == name
  {
    if name == "low" then Some(Low)
    else if name == "medium" then Some(Medium)
    else if name == "high" then Some(High)
    else if name == "critical" then Some(Critical)
    else None
  }

  lemma PriorityNameRoundTrip(p: TaskPriority)
    ensures PriorityOfName(PriorityName(p)) == Some(p)
  {
    match p
    case Low =>
    case Medium => assert "medium"[0] != "low"[0];
    case High => assert "high"[0] != "low"[0] && "high"[0] != "medium"[0];
    case Critical => assert "critical"[0] != "low"[0] && "critical"[0] != "medium"[0] && "critical"[0] != "high"[0];
  }

  /** The fields of a task the model uses. */
  datatype Task = Task(
    id: string, name: string, description: string, startDate: string, endDate: string,
    status: TaskStatus, priority: TaskPriority, projectId: string, assigneeId: string,
    isOverdue: bool, overdueDays: int)

  /** The body `createTask` posts. */
  datatype CreateTaskPayload = CreateTaskPayload(
    name: string, description: string, startDate: string, endDate: string,
    status: TaskStatus, priority: TaskPriority, assigneeId: string)
}
