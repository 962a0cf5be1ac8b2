/** `taskCreateSchema` (src/features/tasks/schemas/task-create-schema.ts).
    Dates are compared through `time`, the millisecond value `new Date(s)`
    gives, with `None` for a string that is not a date. */
module TaskCreateSchema {
  import opened Wrappers
  import opened Validation
  import opened TaskTypes

  /** The raw form fields; `None` is a missing field. Status and priority
      arrive as the select's strings. */
  datatype TaskInput = TaskInput(
    projectId: Option<string>, name: Option<string>, description: Option<string>,
    startDate: Option<string>, endDate: Option<string>, status: Option<string>, priority: Option<string>)

  /** The parsed form (`TaskCreateSchema`). */
  datatype TaskFormValues = TaskFormValues(
    projectId: string, name: string, description: string, startDate: string, endDate: string,
    status: TaskStatus, priority: TaskPriority)

  /** The statuses the form offers: fewer than a task can have. */
  predicate FormStatusOption(s: TaskStatus) {
    s == Todo || s == InProgress || s == Done
  }

  /** `z.enum(statusOptions).default("todo")`: a missing status is "todo";
      a string outside the three options has no value. */
  function FormStatus(raw: Option<string>): (r: Option<TaskStatus>)
    ensures raw.None? ==> r == Some(Todo)
    ensures r.Some? ==> FormStatusOption(r.value)
    ensures raw.Some? && r.Some? ==> StatusName(r.value) == raw.value
    ensures raw.Some? && StatusOfName(raw.value).Some? && FormStatusOption(StatusOfName(raw.value).value) ==> r.Some?
  {
    match raw
    case None => Some(Todo)
    case Some(s) =>
      if StatusOfName(s).Some? && FormStatusOption(StatusOfName(s).value) then StatusOfName(s) else None
  }

  /** `z.enum(priorityOptions).default("medium")`. */
  function FormPriority(raw: Option<string>): (r: Option<TaskPriority>)
    ensures raw.None? ==> r == Some(Medium)
    ensures raw.Some? ==> r == PriorityOfName(raw.value)
  {
    match raw
    case None => Some(Medium)
    case Some(s) => PriorityOfName(s)
  }

  /** An enum that has no value stops parsing with its one message. */
  function EnumCheck(ok: bool, path: string, message: string): (c: FieldCheck)
    ensures c.fatal <==> !ok
    ensures c.issues == if ok then [] else [Issue(path, message)]
  {
    if ok then FieldCheck([], false) else FieldCheck([Issue(path, message)], true)
  }

  function ProjectCheck(input: TaskInput): FieldCheck {
    MinLength(input.projectId, "projectId", "Project ID is required", 1, "Project ID is required")
  }

  function NameCheck(input: TaskInput): FieldCheck {
    MinLength(input.name, "name", "Task name is required", 3, "Task name must be at least 3 characters")
  }

  function DescriptionCheck(input: TaskInput): FieldCheck {
    MinLength(input.description, "description", "Description is required", 5, "Description must be at least 5 characters")
  }

  function StartCheck(input: TaskInput): FieldCheck {
    RequiredString(input.startDate, "startDate", "Start date is required")
  }

  function EndCheck(input: TaskInput): FieldCheck {
    RequiredString(input.endDate, "endDate", "End date is required")
  }

  function StatusCheck(input: TaskInput): FieldCheck {
    EnumCheck(FormStatus(input.status).Some?, "status", "Invalid status")
  }

  function PriorityCheck(input: TaskInput): FieldCheck {
    EnumCheck(FormPriority(input.priority).Some?, "priority", "Invalid priority")
  }

  const OrderIssue := Issue("endDate", "End date must be after start date")

  /** Parsing reaches the refinement: no field is missing and both enums
      have a value. */
  predicate ReachesRefinement(input: TaskInput) {
    input.projectId.Some? && input.name.Some? && input.description.Some? && input.startDate.Some? && input.endDate.Some?
    && FormStatus(input.status).Some? && FormPriority(input.priority).Some?
  }

  /** The refinement: both dates parse and the start is not after the end;
      equal dates pass. */
  predicate InOrder(start: string, end: string, time: string -> Option<int>) {
    time(start).Some? && time(end).Some? && time(start).value <= time(end).value
  }

  function TaskIssueList(input: TaskInput, time: string -> Option<int>): seq<Issue> {
    var fields := ProjectCheck(input).issues + NameCheck(input).issues + DescriptionCheck(input).issues
                  + StartCheck(input).issues + EndCheck(input).issues + StatusCheck(input).issues + PriorityCheck(input).issues;
    if ReachesRefinement(input) && !InOrder(input.startDate.value, input.endDate.value, time) then fields + [OrderIssue] else fields
  }

  /** The task form is accepted exactly when every text field is present and
      long enough, the status and priority are among the options (or left
      out), and the dates are in order; the result carries the defaults. */
  function ParseTaskCreate(input: TaskInput, time: string -> Option<int>): (r: Result<TaskFormValues, seq<Issue>>)
    ensures r.Ok? <==> ReachesRefinement(input) && |input.projectId.value| >= 1 && |input.name.value| >= 3
                       && |input.description.value| >= 5 && InOrder(input.startDate.value, input.endDate.value, time)
    ensures r.Ok? ==> r.value == TaskFormValues(input.projectId.value, input.name.value, input.description.value,
                                                input.startDate.value, input.endDate.value,
                                                FormStatus(input.status).value, FormPriority(input.priority).value)
    ensures r.Ok? ==> FormStatusOption(r.value.status)
    ensures IssuesOf(r) == TaskIssueList(input, time)
  {
    var issues := TaskIssueList(input, time);
    if issues == [] then
      Ok(TaskFormValues(input.projectId.value, input.name.value, input.description.value,
                        input.startDate.value, input.endDate.value,
                        FormStatus(input.status).value, FormPriority(input.priority).value))
    else Err(issues)
  }

  /** Where each field's issues sit. */
  lemma Layout(input: TaskInput, time: string -> Option<int>)
    ensures forall x :: x in TaskIssueList(input, time) <==>
              x in ProjectCheck(input).issues || x in NameCheck(input).issues || x in DescriptionCheck(input).issues
              || x in StartCheck(input).issues || x in EndCheck(input).issues || x in StatusCheck(input).issues
              || x in PriorityCheck(input).issues
              || (x == OrderIssue && ReachesRefinement(input) && !InOrder(input.startDate.value, input.endDate.value, time))
  {
  }

  /** The date order is reported on `endDate`, and only once parsing reaches
      the refinement. */
  lemma OrderIssues(input: TaskInput, time: string -> Option<int>)
    requires input.endDate.Some?
    ensures OrderIssue in IssuesOf(ParseTaskCreate(input, time))
            <==> ReachesRefinement(input) && !InOrder(input.startDate.value, input.endDate.value, time)
  {
    Layout(input, time);
    assert OrderIssue !in EndCheck(input).issues;
    assert "endDate" != "startDate";
  }

  /** An unknown status or priority is reported, and stops parsing. */
  lemma EnumIssues(input: TaskInput, time: string -> Option<int>)
    ensures Issue("status", "Invalid status") in IssuesOf(ParseTaskCreate(input, time)) <==> FormStatus(input.status).None?
    ensures Issue("priority", "Invalid priority") in IssuesOf(ParseTaskCreate(input, time)) <==> FormPriority(input.priority).None?
    ensures FormStatus(input.status).None? || FormPriority(input.priority).None? ==> OrderIssue !in IssuesOf(ParseTaskCreate(input, time))
  {
    Layout(input, time);
  }

  /** Length issues of the three text fields. */
  lemma LengthIssues(input: TaskInput, time: string -> Option<int>)
    ensures Issue("projectId", "Project ID is required") in IssuesOf(ParseTaskCreate(input, time))
            <==> input.projectId.None? || input.projectId.value == []
    ensures Issue("name", "Task name must be at least 3 characters") in IssuesOf(ParseTaskCreate(input, time))
            <==> input.name.Some? && |input.name.value| < 3
    ensures Issue("description", "Description must be at least 5 characters") in IssuesOf(ParseTaskCreate(input, time))
            <==> input.description.Some? && |input.description.value| < 5
  {
    ProjectIssue(input, time);
    NameIssue(input, time);
    DescriptionIssue(input, time);
  }

  lemma ProjectIssue(input: TaskInput, time: string -> Option<int>)
    ensures Issue("projectId", "Project ID is required") in IssuesOf(ParseTaskCreate(input, time))
            <==> input.projectId.None? || input.projectId.value == []
  {
    Layout(input, time);
  }

  lemma NameIssue(input: TaskInput, time: string -> Option<int>)
    ensures Issue("name", "Task name must be at least 3 characters") in IssuesOf(ParseTaskCreate(input, time))
            <==> input.name.Some? && |input.name.value| < 3
  {
    Layout(input, time);
  }

  lemma DescriptionIssue(input: TaskInput, time: string -> Option<int>)
    ensures Issue("description", "Description must be at least 5 characters") in IssuesOf(ParseTaskCreate(input, time))
            <==> input.description.Some? && |input.description.value| < 5
  {
    Layout(input, time);
  }

  /** A start equal to the end is accepted. */
  lemma EqualDatesAccepted(d: string, time: string -> Option<int>)
    requires time(d).Some?
    ensures ParseTaskCreate(TaskInput(Some("p1"), Some("Task"), Some("Details"), Some(d), Some(d), None, None), time)
            == Ok(TaskFormValues("p1", "Task", "Details", d, d, Todo, Medium))
  {
  }

  /** The form the task dialog starts with (src/features/tasks/components/tasks-overview.tsx). */
  const DefaultForm := TaskInput(Some(""), Some(""), Some(""), Some(""), Some(""), Some("todo"), Some("medium"))

  /** Submitting the untouched dialog fails on the project, the name, the
      description and, since an empty string is not a date, the date order. */
  lemma DefaultFormRejected(time: string -> Option<int>)
    requires time("").None?
    ensures var issues := IssuesOf(ParseTaskCreate(DefaultForm, time));
            Issue("projectId", "Project ID is required") in issues
            && Issue("name", "Task name must be at least 3 characters") in issues
            && Issue("description", "Description must be at least 5 characters") in issues
            && OrderIssue in issues
  {
    LengthIssues(DefaultForm, time);
    OrderIssues(DefaultForm, time);
  }
}
