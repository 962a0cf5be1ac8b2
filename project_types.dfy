/** The project entities the client reads (src/features/projects/types/project-types.ts). */
module ProjectTypes {
  import opened Wrappers

  datatype ProjectStatus = Active | Completed | Archived

  /** The wire spelling of a status. */
  function StatusName(s: ProjectStatus): string {
    match s
    case Active => "active"
    case Completed => "completed"
    case Archived => "archived"
  }

  /** Reading a status back from its spelling. */
  function StatusOfName(name: string): (r: Option<ProjectStatus>)
    ensures r.Some? ==> StatusName(r.value) == name
  {
    if name == "active" then Some(Active)
    else if name == "completed" then Some(Completed)
    else if name == "archived" then Some(Archived)
    else None
  }

  lemma StatusNameRoundTrip(s: ProjectStatus)
    ensures StatusOfName(StatusName(s)) == Some(s)
  {
    assert "completed" != "active";
    assert "archived" != "active" && "archived" != "completed";
  }

  datatype TeamMember = TeamMember(id: string, name: string, email: string)

  /** The fields of a project the model uses; dates, documents and authorship
      are carried but not interpreted. */
  datatype Project = Project(
    id: string, name: string, description: string, status: ProjectStatus,
    startDate: string, endDate: string, teams: seq<TeamMember>,
    isOverdue: bool, overdueDays: int)
}
