/** The tasks screen (src/features/tasks/components/tasks-overview.tsx): the
    filtered, incrementally loaded task list as on the projects screen, plus
    the create dialog and per-task deletion with their error banners. The
    awaited mutations' outcomes are parameters of the methods that finish
    them; `window.confirm` is a parameter too. */
module TasksOverview {
  import opened Wrappers
  import opened Paging
  import opened TaskTypes
  import opened TasksQuery
  import opened TaskCreateSchema
  import opened Debounce
  import opened InfiniteList

  /** What a rejected mutation threw: an `Error`, or some other value. */
  datatype Thrown = ErrorObject(message: string) | OtherValue

  datatype Outcome = Succeeded | Failed(error: Thrown)

  const DeleteFallback := "Unable to delete task. Please try again."
  const CreateFallback := "Unable to create task. Please try again."

  /** `error instanceof Error ? error.message : fallback` */
  function ErrorMessage(e: Thrown, fallback: string): (m: string)
    ensures e.ErrorObject? ==> m == e.message
    ensures e.OtherValue? ==> m == fallback
  {
    match e
    case ErrorObject(message) => message
    case OtherValue => fallback
  }

  /** A banner shows only a non-empty message: an `Error` with an empty
      message sets the state but shows nothing. */
  lemma EmptyMessageHidden(fallback: string)
    requires fallback != []
    ensures !Truthy(Some(ErrorMessage(ErrorObject(""), fallback)))
    ensures Truthy(Some(ErrorMessage(OtherValue, fallback)))
  {
  }

  /** The status cell of a task card. */
  datatype DueLabel = OverdueBy(days: int) | OnTrack

  function DueLabelOf(t: Task): (l: DueLabel)
    ensures l.OverdueBy? <==> t.isOverdue
    ensures l.OverdueBy? ==> l.days == t.overdueDays
  {
    if t.isOverdue then OverdueBy(t.overdueDays) else OnTrack
  }

  /** The create button is disabled while a create is pending, while the
      project options load, or when there are none. */
  predicate IsCreateDisabled(isPending: bool, optionsLoading: bool, optionCount: nat) {
    isPending || optionsLoading || optionCount == 0
  }

  /** A task card's delete button is busy while that task is the one being
      deleted and the delete is pending. */
  predicate IsDeleting(taskBeingDeleted: Option<string>, taskId: string, isPending: bool) {
    taskBeingDeleted == Some(taskId) && isPending
  }

  /** Create is enabled exactly when nothing is pending, the options have
      loaded and there is at least one; then the auto-select effect can name
      a project for the form. */
  lemma CreateEnabled(isPending: bool, optionsLoading: bool, projectId: string, options: seq<string>)
    ensures !IsCreateDisabled(isPending, optionsLoading, |options|) <==> !isPending && !optionsLoading && options != []
    ensures !IsCreateDisabled(isPending, optionsLoading, |options|) && options[0] != [] ==> AutoSelect(projectId, options) != []
  {
  }

  /** Only the marked card is busy, and only while the delete is pending. */
  lemma DeletingCard(taskBeingDeleted: Option<string>, taskId: string, isPending: bool)
    ensures IsDeleting(taskBeingDeleted, taskId, isPending) ==> isPending && taskBeingDeleted == Some(taskId)
    ensures isPending ==> IsDeleting(Some(taskId), taskId, isPending)
    ensures !IsDeleting(None, taskId, isPending)
  {
  }

  /** At most one card is busy at a time. */
  lemma OneCardDeleting(taskBeingDeleted: Option<string>, a: string, b: string, isPending: bool)
    ensures IsDeleting(taskBeingDeleted, a, isPending) && IsDeleting(taskBeingDeleted, b, isPending) ==> a == b
  {
  }

  /** The auto-select effect: with project options loaded and no project
      chosen, the first option is chosen; a chosen project is kept. */
  function AutoSelect(projectId: string, options: seq<string>): (r: string)
    ensures options == [] ==> r == projectId
    ensures projectId != [] ==> r == projectId
    ensures options != [] && projectId == [] ==> r == options[0]
  {
    if options == [] || projectId != [] then projectId else options[0]
  }

  /** After the effect the form names a project whenever the first option
      has an id, and a second run changes nothing. */
  lemma AutoSelectSettles(projectId: string, options: seq<string>)
    ensures AutoSelect(AutoSelect(projectId, options), options) == AutoSelect(projectId, options)
    ensures options != [] && options[0] != [] ==> AutoSelect(projectId, options) != []
  {
  }

  /** The props the screen hands the hook. */
  function QueryProps(status: Choice<TaskStatus>, priority: Choice<TaskPriority>, debouncedSearch: string): Props {
    Props(Some(debouncedSearch), Some(status), Some(priority), None)
  }

  /** The screen starts with "all" statuses and priorities, so its first
      request names neither: the hook's "todo" default never applies here. */
  lemma InitialKey()
    ensures NormalizeFilters(QueryProps(All, All, "")) == Filters(None, All, All, DefaultPerPage)
    ensures var q := TaskService.FetchTasksRequest(PageParams(NormalizeFilters(QueryProps(All, All, "")), InitialPageParam)).params;
            "status" !in q && "priority" !in q
  {
  }

  /** The screen's state. */
  class TasksScreen {
    var status: Choice<TaskStatus>
    var priority: Choice<TaskPriority>
    const search: Debouncer<string>
    const query: InfiniteQuery<Filters, Task>
    var isDialogOpen: bool
    var formError: Option<string>
    var deleteError: Option<string>
    var taskBeingDeleted: Option<string>
    var form: TaskInput

    function Key(): Filters
      reads this, search
    {
      NormalizeFilters(QueryProps(status, priority, search.debounced))
    }

    predicate Valid()
      reads this, search, query
    {
      query.Valid() && query.key == Key()
    }

    constructor ()
      ensures Valid() && fresh(search) && fresh(query)
      ensures status == All && priority == All && search.Snapshot() == Mount("")
      ensures !isDialogOpen && formError.None? && deleteError.None? && taskBeingDeleted.None?
      ensures form == DefaultForm && query.pages == []
    {
      status := All;
      priority := All;
      search := new Debouncer("");
      query := new InfiniteQuery(Filters(None, All, All, DefaultPerPage));
      isDialogOpen := false;
      formError := None;
      deleteError := None;
      taskBeingDeleted := None;
      form := DefaultForm;
      new;
      assert search.debounced == "" by { assert search.Snapshot() == Mount(""); }
      assert Key() == NormalizeFilters(QueryProps(All, All, ""));
      InitialKey();
      assert Key() == Filters(None, All, All, DefaultPerPage);
    }

    method Sync()
      requires query.Valid()
      modifies query
      ensures Valid()
      ensures old(query.key) == Key() ==> query.pages == old(query.pages) && query.fetching == old(query.fetching)
                                          && query.isError == old(query.isError)
      ensures old(query.key) != Key() ==> query.pages == [] && query.fetching == Some(InitialPageParam) && !query.isError
    {
      if query.key != Key() {
        query.Restart(Key());
      }
    }

    method SetStatus(s: Choice<TaskStatus>)
      requires Valid()
      modifies this`status, query
      ensures Valid() && status == s
      ensures old(query.key) == Key() ==> query.pages == old(query.pages) && query.fetching == old(query.fetching)
                                          && query.isError == old(query.isError)
      ensures old(query.key) != Key() ==> query.pages == [] && query.fetching == Some(InitialPageParam) && !query.isError
    {
      status := s;
      Sync();
    }

    method SetPriority(p: Choice<TaskPriority>)
      requires Valid()
      modifies this`priority, query
      ensures Valid() && priority == p
      ensures old(query.key) == Key() ==> query.pages == old(query.pages) && query.fetching == old(query.fetching)
                                          && query.isError == old(query.isError)
      ensures old(query.key) != Key() ==> query.pages == [] && query.fetching == Some(InitialPageParam) && !query.isError
    {
      priority := p;
      Sync();
    }

    method TypeSearch(text: string)
      requires Valid()
      modifies search
      ensures Valid()
      ensures search.Snapshot() == AfterInput(old(search.Snapshot()), text)
    {
      search.Input(text);
    }

    method Tick()
      requires Valid()
      modifies search, query
      ensures Valid()
      ensures search.Snapshot() == AfterTick(old(search.Snapshot()))
      ensures old(query.key) == Key() ==> query.pages == old(query.pages) && query.fetching == old(query.fetching)
                                          && query.isError == old(query.isError)
      ensures old(query.key) != Key() ==> query.pages == [] && query.fetching == Some(InitialPageParam) && !query.isError
    {
      search.Tick();
      Sync();
    }

    /** "Try again", and the `["tasks"]` invalidation after a create or a
        delete: the list starts again from page 1. */
    method Refetch()
      requires Valid()
      modifies query
      ensures Valid() && query.pages == [] && query.fetching == Some(InitialPageParam) && !query.isError
    {
      query.Restart(query.key);
    }

    method OnSentinel(isIntersecting: bool)
      requires Valid()
      modifies query`fetching
      ensures Valid()
      ensures query.fetching == if ShouldLoadMore(isIntersecting, query.HasNextPage(), old(query.IsFetchingNextPage()))
                                then Pending(query.pages) else old(query.fetching)
    {
      query.OnIntersect(isIntersecting);
    }

    /** The auto-select effect over the loaded project option ids. */
    method AutoSelectProject(options: seq<string>)
      modifies this`form
      ensures form.projectId.GetOr("") == AutoSelect(old(form).projectId.GetOr(""), options)
      ensures options != [] && old(form).projectId.GetOr("") == [] ==> form == old(form).(projectId := Some(options[0]))
      ensures !(options != [] && old(form).projectId.GetOr("") == []) ==> form == old(form)
    {
      if options == [] {
        return;
      }
      if form.projectId.GetOr("") == [] {
        form := form.(projectId := Some(options[0]));
      }
    }

    /** `handleDeleteTask` up to its `await`: a declined confirmation changes
        nothing; otherwise the old error is cleared and the task marked. */
    method StartDelete(taskId: string, confirmed: bool) returns (requested: bool)
      modifies this`deleteError, this`taskBeingDeleted
      ensures requested == confirmed
      ensures !confirmed ==> deleteError == old(deleteError) && taskBeingDeleted == old(taskBeingDeleted)
      ensures confirmed ==> deleteError.None? && taskBeingDeleted == Some(taskId)
    {
      if !confirmed {
        return false;
      }
      deleteError := None;
      taskBeingDeleted := Some(taskId);
      return true;
    }

    /** The rest of `handleDeleteTask`: on failure the error banner is set;
        either way no task is marked any more. On success the tasks query
        is invalidated. */
    method FinishDelete(outcome: Outcome)
      requires Valid()
      modifies this`deleteError, this`taskBeingDeleted, query
      ensures Valid()
      ensures taskBeingDeleted.None?
      ensures outcome.Failed? ==> deleteError == Some(ErrorMessage(outcome.error, DeleteFallback)) && unchanged(query)
      ensures outcome.Succeeded? ==> deleteError == old(deleteError)
                                     && query.pages == [] && query.fetching == Some(InitialPageParam) && !query.isError
    {
      if outcome.Failed? {
        deleteError := Some(ErrorMessage(outcome.error, DeleteFallback));
      } else {
        Refetch();
      }
      taskBeingDeleted := None;
    }

    /** `onSubmit` up to its `await`: the old form error is cleared. */
    method StartSubmit()
      modifies this`formError
      ensures formError.None?
    {
      formError := None;
    }

    /** The rest of `onSubmit`: a create resets the form to its defaults and
        closes the dialog (and the tasks query is invalidated); a failure
        keeps the form and the dialog and shows the error. */
    method FinishSubmit(outcome: Outcome)
      requires Valid()
      modifies this`form, this`isDialogOpen, this`formError, query
      ensures Valid()
      ensures outcome.Succeeded? ==> form == DefaultForm && !isDialogOpen && formError == old(formError)
                                     && query.pages == [] && query.fetching == Some(InitialPageParam) && !query.isError
      ensures outcome.Failed? ==> form == old(form) && isDialogOpen == old(isDialogOpen)
                                  && formError == Some(ErrorMessage(outcome.error, CreateFallback))
                                  && unchanged(query)
    {
      if outcome.Succeeded? {
        Refetch();
        form := DefaultForm;
        isDialogOpen := false;
      } else {
        formError := Some(ErrorMessage(outcome.error, CreateFallback));
      }
    }

    /** `onOpenChange` of the dialog. */
    method SetDialogOpen(open: bool)
      modifies this`isDialogOpen
      ensures isDialogOpen == open
    {
      isDialogOpen := open;
    }

    method Render() returns (v: ListView)
      requires Valid()
      ensures v == ScreenView(query)
    {
      v := ScreenView(query);
    }
  }
}
