/** `useCreateTaskMutation` (src/features/tasks/mutations/use-create-task-mutation.ts):
    the validated form becomes a POST under its project, assigned to the
    signed-in user, with both dates in ISO form. `toIso` stands for
    `new Date(s).toISOString()`, `None` where that throws. */
module CreateTaskMutation {
  import opened Wrappers
  import opened TaskTypes
  import opened TaskService
  import opened TaskCreateSchema

  const NotLoggedInMessage := "You must be logged in to create a task."

  /** The message of the `RangeError` an invalid date throws. */
  const InvalidTimeMessage := "Invalid time value"

  /** `mutationFn(input)`: no request without a user id; the project id
      leaves the body for the URL; the assignee is the user. */
  function CreateTaskCall(userId: Option<string>, input: TaskFormValues, toIso: string -> Option<string>): (r: Result<PostRequest, string>)
    ensures !Truthy(userId) ==> r == Err(NotLoggedInMessage)
    ensures Truthy(userId) && (toIso(input.startDate).None? || toIso(input.endDate).None?) ==> r == Err(InvalidTimeMessage)
    ensures Truthy(userId) && toIso(input.startDate).Some? && toIso(input.endDate).Some? ==>
              r.Ok? && ProjectOfCreateUrl(r.value.url) == Some(input.projectId)
              && r.value.body == CreateTaskPayload(input.name, input.description, toIso(input.startDate).value,
                                                   toIso(input.endDate).value, input.status, input.priority, userId.value)
  {
    if !Truthy(userId) then Err(NotLoggedInMessage)
    else if toIso(input.startDate).None? || toIso(input.endDate).None? then Err(InvalidTimeMessage)
    else
      var payload := CreateTaskPayload(input.name, input.description, toIso(input.startDate).value,
                                       toIso(input.endDate).value, input.status, input.priority, userId.value);
      Ok(CreateTaskRequest(input.projectId, payload))
  }

  /** A form the schema accepted is always sent by a signed-in user, when
      every date the schema can read also has an ISO form: to its project,
      assigned to that user, with a status the form offers. */
  lemma AcceptedFormIsSent(raw: TaskInput, time: string -> Option<int>, toIso: string -> Option<string>, userId: string)
    requires ParseTaskCreate(raw, time).Ok? && userId != []
    requires forall s :: time(s).Some? ==> toIso(s).Some?
    ensures var v := ParseTaskCreate(raw, time).value;
            var r := CreateTaskCall(Some(userId), v, toIso);
            r.Ok? && ProjectOfCreateUrl(r.value.url) == raw.projectId && r.value.body.assigneeId == userId
            && FormStatusOption(r.value.body.status)
  {
    var v := ParseTaskCreate(raw, time).value;
    assert time(v.startDate).Some? && time(v.endDate).Some?;
  }
}
