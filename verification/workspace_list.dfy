/** The project switcher of src/components/List/WorkspaceList.jsx:
    `fetchProjects` with its guard, its role-chosen endpoint and its handling
    of the reply, and `handleDefaultProject`. */
module WorkspaceList {
  import opened Wrappers
  import opened JsText

  /** The signed-in user as the session provides it. */
  datatype User = User(id: int, role: Option<string>)

  /** A project record as the server sends it; `ownerId` stands for the
      fields the list does not copy. */
  datatype Project = Project(id: int, title: string, description: string, ownerId: int)

  /** A menu entry. */
  datatype WorkspaceItem = WorkspaceItem(id: int, title: string, description: string)

  /** The component's state together with the two values it reports to its
      parent: whether the user has no projects, and the selected project. */
  datatype WorkspaceState = WorkspaceState(
    items: seq<WorkspaceItem>,
    loading: bool,
    hasFetchedProjects: bool,
    projectsNull: bool,
    selected: Option<int>)

  /** The state on mount; the dashboard starts with no project selected. */
  const InitialState: WorkspaceState := WorkspaceState([], true, false, false, None)

  /** The answer to the project list request. */
  datatype ProjectsReply = ProjectsError | Projects(list: seq<Project>)

  /** The guard at the top of `fetchProjects`: a user with a truthy role,
      and no successful fetch yet. */
  predicate ShouldFetch(user: Option<User>, hasFetchedProjects: bool)
  {
    user.Some? && TruthyText(user.value.role) && !hasFetchedProjects
  }

  /** The endpoint for a role: "user" and "manager" have their own; any other
      role sends nothing (and the code then fails reading the missing
      response). */
  function ProjectsEndpoint(role: string): (url: Option<string>)
    ensures url.Some? <==> role == "user" || role == "manager"
    ensures role == "user" ==> url == Some("users/projects")
    ensures role == "manager" ==> url == Some("/projects/index")
  {
    if role == "user" then Some("users/projects")
    else if role == "manager" then Some("/projects/index")
    else None
  }

  /** The menu entries for a project list: id, title and description of each
      project, in the server's order. */
  function ToItems(projects: seq<Project>): (items: seq<WorkspaceItem>)
    ensures |items| == |projects|
    ensures forall i :: 0 <= i < |projects| ==>
      items[i].id == projects[i].id && items[i].title == projects[i].title
      && items[i].description == projects[i].description
  {
    seq(|projects|, i requires 0 <= i < |projects| =>
      WorkspaceItem(projects[i].id, projects[i].title, projects[i].description))
  }

  /** `handleDefaultProject`: the first project's id, if there is one. */
  function DefaultProject(projects: seq<Project>): (id: Option<int>)
    ensures id.Some? <==> |projects| > 0
    ensures id.Some? ==> id.value == projects[0].id
  {
    if |projects| > 0 then Some(projects[0].id) else None
  }

  /** `fetchProjects`: the new state and the URL requested, if any. */
  datatype FetchOutcome = FetchOutcome(state: WorkspaceState, request: Option<string>)

  function FetchProjects(s: WorkspaceState, user: Option<User>, reply: ProjectsReply): (r: FetchOutcome)
    // the guard: nothing happens at all
    ensures !ShouldFetch(user, s.hasFetchedProjects) ==> r == FetchOutcome(s, None)
    // past the guard, loading always ends false
    ensures ShouldFetch(user, s.hasFetchedProjects) ==> !r.state.loading
    ensures ShouldFetch(user, s.hasFetchedProjects) ==> r.request == ProjectsEndpoint(user.value.role.value)
    // unknown role or failed request: only loading changes
    ensures ShouldFetch(user, s.hasFetchedProjects) && (r.request.None? || reply.ProjectsError?) ==>
      r.state == s.(loading := false)
    // empty list: no projects, not marked as fetched, selection kept
    ensures ShouldFetch(user, s.hasFetchedProjects) && r.request.Some? && reply == Projects([]) ==>
      r.state == s.(items := [], projectsNull := true, loading := false)
    // non-empty list: items replaced, marked fetched, first project selected if none was
    ensures ShouldFetch(user, s.hasFetchedProjects) && r.request.Some? && reply.Projects? && |reply.list| > 0 ==>
      && r.state.items == ToItems(reply.list)
      && r.state.hasFetchedProjects && !r.state.projectsNull
      && r.state.selected == (if TruthyNumber(s.selected) then s.selected else Some(reply.list[0].id))
  {
    if !ShouldFetch(user, s.hasFetchedProjects) then FetchOutcome(s, None)
    else
      var url := ProjectsEndpoint(user.value.role.value);
      if url.None? then FetchOutcome(s.(loading := false), None)
      else match reply
        case ProjectsError => FetchOutcome(s.(loading := false), url)
        case Projects(list) =>
          if |list| == 0 then FetchOutcome(s.(items := [], projectsNull := true, loading := false), url)
          else
            var selected := if TruthyNumber(s.selected) then s.selected else DefaultProject(list);
            FetchOutcome(WorkspaceState(ToItems(list), false, true, false, selected), url)
  }

  /** After a non-empty list has been loaded, a second fetch sends nothing
      and changes nothing. */
  lemma FetchOnce(s: WorkspaceState, user: Option<User>, list: seq<Project>, reply: ProjectsReply)
    requires ShouldFetch(user, s.hasFetchedProjects) && |list| > 0
    requires ProjectsEndpoint(user.value.role.value).Some?
    ensures var first := FetchProjects(s, user, Projects(list)).state;
      FetchProjects(first, user, reply) == FetchOutcome(first, None)
  {
  }

  /** An empty list leaves the fetch to be retried: the next call sends the
      request again. */
  lemma EmptyListIsRetried(s: WorkspaceState, user: Option<User>, reply: ProjectsReply)
    requires ShouldFetch(user, s.hasFetchedProjects)
    requires ProjectsEndpoint(user.value.role.value).Some?
    ensures var first := FetchProjects(s, user, Projects([])).state;
      FetchProjects(first, user, reply).request == ProjectsEndpoint(user.value.role.value)
  {
  }

  /** After a successful fetch from the initial state the selected project
      is one of the listed ones: the first. */
  lemma InitialFetchSelectsFirst(user: Option<User>, list: seq<Project>)
    requires ShouldFetch(user, false) && |list| > 0
    requires ProjectsEndpoint(user.value.role.value).Some?
    ensures var r := FetchProjects(InitialState, user, Projects(list)).state;
      r.selected == Some(list[0].id) && r.items[0].id == list[0].id
  {
  }
}
