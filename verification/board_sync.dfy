/** What src/components/KanbanBoard/Board.jsx does between the board value and
    the network: the task reload (`fetchManagerTasks`) with its request and
    payload, paging, card creation (`handleSubmit`) and the status save after
    a drag (`saveTaskStatus`). Every network reply is a parameter; each
    operation returns the request it would send and the notices it would
    show. */
module BoardSync {
  import opened Wrappers
  import opened JsText
  import Notices
  import TaskUtils
  import FiltersMenu
  import opened KanbanBoard

  // ------------------------------------------------------------------ state

  /** The pagination state. The links are the server's page URLs; only their
      truthiness is used. */
  datatype Cursor = Cursor(currentPage: int, lastPage: int, nextPageUrl: Option<string>, prevPageUrl: Option<string>)

  const InitialCursor: Cursor := Cursor(1, 1, None, None)

  /** The component's board-related state. */
  datatype BoardView = BoardView(board: Board, cursor: Cursor, isLoading: bool)

  const InitialView: BoardView := BoardView(EmptyBoard(), InitialCursor, true)

  /** The snackbars the board shows. */
  datatype BoardNotice =
    | NoProjectSelected
    | NoTasksFound
    | FetchFailed
    | TaskCreated
    | InvalidTitle
    | CreateFailed
    | StatusUpdated(taskId: int, status: string)
    | NoPermission
    | StatusUpdateFailed
  {
    function Variant(): Notices.Variant
    {
      match this
      case NoProjectSelected => Notices.Info
      case NoTasksFound => Notices.Info
      case FetchFailed => Notices.Error
      case TaskCreated => Notices.Success
      case InvalidTitle => Notices.Warning
      case CreateFailed => Notices.Error
      case StatusUpdated(_, _) => Notices.Info
      case NoPermission => Notices.Warning
      case StatusUpdateFailed => Notices.Warning
    }

    /** The text of every notice whose text does not embed a task. */
    function Text(): string
      requires !StatusUpdated?
    {
      match this
      case NoProjectSelected => "No project selected."
      case NoTasksFound => "No tasks found"
      case FetchFailed => "Error occurred while fetching tasks. Please try again."
      case TaskCreated => "Task created successfully!"
      case InvalidTitle => "Please provide a valid title"
      case CreateFailed => "Error creating task"
      case NoPermission => "You don't have permission"
      case StatusUpdateFailed => "Error updating task status"
    }
  }

  /** The kind of each notice: errors for failed requests, a warning for an
      invalid title and for a failed status save, success only for a created
      task, information otherwise. */
  lemma BoardNoticeKinds(n: BoardNotice)
    ensures n.Variant() == Notices.Error <==> n.FetchFailed? || n.CreateFailed?
    ensures n.Variant() == Notices.Warning <==> n.InvalidTitle? || n.NoPermission? || n.StatusUpdateFailed?
    ensures n.Variant() == Notices.Success <==> n.TaskCreated?
    ensures n.Variant() == Notices.Info <==> n.NoProjectSelected? || n.NoTasksFound? || n.StatusUpdated?
  {
  }

  /** Distinct fixed-text notices show distinct texts. */
  lemma BoardNoticeTextsDistinct(a: BoardNotice, b: BoardNotice)
    requires !a.StatusUpdated? && !b.StatusUpdated?
    ensures a.Text() == b.Text() <==> a == b
  {
  }

  // -------------------------------------------------------- request building

  /** The filters as the board receives them. Every field may be missing: the
      dashboard starts with `{status: []}` and only later receives a complete
      set from the filter menu. */
  datatype QueryFilters = QueryFilters(
    status: Option<seq<string>>,
    priority: Option<seq<string>>,
    dateRange: Option<string>,
    dateField: Option<string>,
    sortBy: Option<string>,
    sortOrder: Option<string>,
    assignedByManager: Option<bool>)

  /** The dashboard's filters before the menu is first applied. */
  const DashboardFilters: QueryFilters := QueryFilters(Some([]), None, None, None, None, None, None)

  /** A complete filter set from the menu, as the board sees it. */
  function FromMenu(f: FiltersMenu.Filters): (q: QueryFilters)
    ensures q.status == Some(f.status) && q.priority == Some(f.priority)
    ensures q.dateRange == Some(f.dateRange) && q.dateField == Some(f.dateField)
    ensures q.sortBy == Some(f.sortBy) && q.sortOrder == Some(f.sortOrder)
    ensures q.assignedByManager == Some(f.assignedByManager)
  {
    QueryFilters(Some(f.status), Some(f.priority), Some(f.dateRange), Some(f.dateField),
                 Some(f.sortBy), Some(f.sortOrder), Some(f.assignedByManager))
  }

  /** The request body; a `None` field is left out of the JSON object. */
  datatype Payload = Payload(
    status: Option<seq<string>>,
    priority: Option<seq<string>>,
    dateRange: Option<string>,
    dateField: Option<string>,
    sortBy: Option<string>,
    sortOrder: Option<string>)

  /** The request body built from the filters. A list is sent only when it
      is non-empty and a string only when it is non-empty, each with its own
      value; the "created_at" default for the date field can never be used. */
  function PayloadOf(f: QueryFilters): (p: Payload)
    ensures p.status.Some? <==> NonEmptyList(f.status)
    ensures p.priority.Some? <==> NonEmptyList(f.priority)
    ensures p.dateRange.Some? <==> TruthyText(f.dateRange)
    ensures p.dateField.Some? <==> TruthyText(f.dateField)
    ensures p.sortBy.Some? <==> TruthyText(f.sortBy)
    ensures p.sortOrder.Some? <==> TruthyText(f.sortOrder)
    ensures p.status.Some? ==> p.status == f.status
    ensures p.priority.Some? ==> p.priority == f.priority
    ensures p.dateRange.Some? ==> p.dateRange == f.dateRange
    ensures p.dateField.Some? ==> p.dateField == f.dateField
    ensures p.sortBy.Some? ==> p.sortBy == f.sortBy
    ensures p.sortOrder.Some? ==> p.sortOrder == f.sortOrder
  {
    Payload(
      if NonEmptyList(f.status) then f.status else None,
      if NonEmptyList(f.priority) then f.priority else None,
      if TruthyText(f.dateRange) then f.dateRange else None,
      if TruthyText(f.dateField)
        then Some(if TruthyText(f.dateField) then f.dateField.value else "created_at")
        else None,
      if TruthyText(f.sortBy) then f.sortBy else None,
      if TruthyText(f.sortOrder) then f.sortOrder else None)
  }

  /** No field of a payload is sent empty. */
  predicate OmitsEmptyFields(p: Payload)
  {
    && (p.status.Some? ==> |p.status.value| > 0)
    && (p.priority.Some? ==> |p.priority.value| > 0)
    && (p.dateRange.Some? ==> p.dateRange.value != "")
    && (p.dateField.Some? ==> p.dateField.value != "")
    && (p.sortBy.Some? ==> p.sortBy.value != "")
    && (p.sortOrder.Some? ==> p.sortOrder.value != "")
  }

  lemma PayloadOmitsEmptyFields(f: QueryFilters)
    ensures OmitsEmptyFields(PayloadOf(f))
  {
  }

  /** The menu's initial filters send only the date field and the sort; the
      dashboard's starting filters send nothing. */
  lemma InitialPayloads()
    ensures PayloadOf(FromMenu(FiltersMenu.InitialFilters))
         == Payload(None, None, None, Some("created_at"), Some("created_at"), Some("asc"))
    ensures PayloadOf(DashboardFilters) == Payload(None, None, None, None, None, None)
  {
  }

  /** Every filter set the menu can produce sends "created_at" as the date
      field. */
  lemma MenuPayloadDateField(events: seq<FiltersMenu.FilterEvent>)
    ensures PayloadOf(FromMenu(FiltersMenu.Run(FiltersMenu.InitialFilters, events))).dateField
         == Some("created_at")
  {
    FiltersMenu.ReachableFiltersWellFormed(events);
  }

  /** The two task lists the board can load. */
  datatype TaskEndpoint = CreatedTasks | AssignedTasks

  /** The URL of an endpoint, before the project id. */
  function EndpointPath(e: TaskEndpoint): (path: string)
    ensures |path| > 1 && path[0] == '/' && path[|path| - 1] == '/'
  {
    match e
    case AssignedTasks => "/dashboard/managers/tasks/assigned/"
    case CreatedTasks => "/users/tasks/created/"
  }

  /** The two endpoints are different URLs, so the assigned flag decides
      which list is loaded. */
  lemma EndpointPathsDiffer()
    ensures EndpointPath(AssignedTasks) != EndpointPath(CreatedTasks)
  {
    assert EndpointPath(AssignedTasks)[1] != EndpointPath(CreatedTasks)[1];
  }

  /** A task-list request: endpoint, project, optional `?page=`, body. */
  datatype TaskQuery = TaskQuery(endpoint: TaskEndpoint, projectId: int, page: Option<int>, payload: Payload)

  /** The request for one project, filter set and page. The assigned-tasks
      endpoint is used exactly when the "assigned by you" flag is set, and
      the page is put in the URL only when it is a non-zero number. */
  function QueryFor(projectId: int, f: QueryFilters, page: Option<int>): (q: TaskQuery)
    ensures q.endpoint == AssignedTasks <==> f.assignedByManager == Some(true)
    ensures q.projectId == projectId
    ensures q.page.Some? <==> TruthyNumber(page)
    ensures q.page.Some? ==> q.page == page
    ensures q.payload == PayloadOf(f)
  {
    TaskQuery(
      if f.assignedByManager == Some(true) then AssignedTasks else CreatedTasks,
      projectId,
      if TruthyNumber(page) then page else None,
      PayloadOf(f))
  }

  // ------------------------------------------------------------------ reload

  /** The server's answer to a task-list request. `grouped` is `None` when the
      body has no `grouped_tasks`. */
  datatype TaskReply =
    | FetchError
    | Fetched(grouped: Option<GroupedTasks>, pagination: Cursor)

  /** The grouped tasks of a reply, `{}` when absent. */
  function GroupsOf(grouped: Option<GroupedTasks>): (g: GroupedTasks)
    ensures grouped.None? ==> g == map[]
    ensures grouped.Some? ==> g == grouped.value
  {
    if grouped.Some? then grouped.value else map[]
  }

  /** The first half of `fetchManagerTasks`: the state once the request is
      sent. */
  datatype ReloadStart =
    | Skipped(notice: BoardNotice)
    | Started(view: BoardView, query: TaskQuery)

  /** With no project selected nothing is sent and the state is untouched;
      otherwise the board is emptied, loading is set and the request built. */
  function BeginReload(view: BoardView, selected: Option<int>, f: QueryFilters, page: Option<int>): (s: ReloadStart)
    ensures s.Skipped? <==> !TruthyNumber(selected)
    ensures s.Skipped? ==> s.notice == NoProjectSelected
    ensures s.Started? ==> && s.view.isLoading && s.view.cursor == view.cursor
                           && Layout(s.view.board) == StandardLayout && TotalCards(s.view.board) == 0
                           && s.query == QueryFor(selected.value, f, page)
  {
    if !TruthyNumber(selected) then Skipped(NoProjectSelected)
    else Started(BoardView(EmptyBoard(), view.cursor, true), QueryFor(selected.value, f, page))
  }

  /** The state after `fetchManagerTasks` finishes, and the notice it shows. */
  datatype Completion = Completion(view: BoardView, notice: Option<BoardNotice>)

  /** The second half of `fetchManagerTasks`. A failure, or a reply whose
      grouped tasks have no keys, leaves board and cursor as they are and
      shows a notice; any other reply replaces both. Loading ends either
      way. */
  function CompleteReload(view: BoardView, reply: TaskReply): (c: Completion)
    ensures !c.view.isLoading
    ensures reply.FetchError? ==>
      c.view.board == view.board && c.view.cursor == view.cursor && c.notice == Some(FetchFailed)
    ensures reply.Fetched? && GroupsOf(reply.grouped).Keys == {} ==>
      c.view.board == view.board && c.view.cursor == view.cursor && c.notice == Some(NoTasksFound)
    ensures reply.Fetched? && GroupsOf(reply.grouped).Keys != {} ==>
      c.view.board == Project(GroupsOf(reply.grouped)) && c.view.cursor == reply.pagination && c.notice == None
  {
    match reply
    case FetchError => Completion(view.(isLoading := false), Some(FetchFailed))
    case Fetched(grouped, pagination) =>
      var groups := GroupsOf(grouped);
      if |groups.Keys| == 0 then Completion(view.(isLoading := false), Some(NoTasksFound))
      else Completion(BoardView(Project(groups), pagination, false), None)
  }

  /** A whole reload: the request sent (if any), the final state, the
      notices in the order shown. */
  datatype ReloadOutcome = ReloadOutcome(view: BoardView, query: Option<TaskQuery>, notices: seq<BoardNotice>)

  function Reload(view: BoardView, selected: Option<int>, f: QueryFilters, page: Option<int>, reply: TaskReply): (r: ReloadOutcome)
    ensures !TruthyNumber(selected) ==> r == ReloadOutcome(view, None, [NoProjectSelected])
    ensures TruthyNumber(selected) ==> && !r.view.isLoading
                                        && r.query == Some(QueryFor(selected.value, f, page))
                                        && Layout(r.view.board) == StandardLayout
    ensures TruthyNumber(selected) && (reply.FetchError? || GroupsOf(reply.grouped).Keys == {}) ==>
      TotalCards(r.view.board) == 0 && r.view.cursor == view.cursor && |r.notices| == 1
    ensures TruthyNumber(selected) && reply.FetchError? ==> r.notices == [FetchFailed]
    ensures TruthyNumber(selected) && reply.Fetched? && GroupsOf(reply.grouped).Keys == {} ==> r.notices == [NoTasksFound]
    ensures TruthyNumber(selected) && reply.Fetched? && GroupsOf(reply.grouped).Keys != {} ==>
      && r.view.board == Project(GroupsOf(reply.grouped))
      && r.view.cursor == reply.pagination
      && r.notices == []
  {
    match BeginReload(view, selected, f, page)
    case Skipped(n) => ReloadOutcome(view, None, [n])
    case Started(started, query) =>
      var c := CompleteReload(started, reply);
      ReloadOutcome(c.view, Some(query), if c.notice.Some? then [c.notice.value] else [])
  }

  /** After a reload with a project selected, every card on the board is the
      card of a task the reply listed under its column's status: nothing from
      before the reload survives. */
  lemma ReloadShowsOnlyReply(view: BoardView, selected: Option<int>, f: QueryFilters, page: Option<int>,
                             reply: TaskReply, i: int, j: int)
    requires TruthyNumber(selected)
    requires 0 <= i < |Reload(view, selected, f, page, reply).view.board.columns|
    requires 0 <= j < |Reload(view, selected, f, page, reply).view.board.columns[i].cards|
    ensures reply.Fetched?
    ensures var tasks := GroupTasks(GroupsOf(reply.grouped), TaskUtils.StatusByColumnId(i + 1));
      j < |tasks| && Reload(view, selected, f, page, reply).view.board.columns[i].cards[j] == TaskToCard(tasks[j])
  {
    var b := Reload(view, selected, f, page, reply).view.board;
    assert Layout(b)[i] == StandardLayout[i];
    if reply.FetchError? || GroupsOf(reply.grouped).Keys == {} {
      CardsInThree(b.columns);
      assert false;
    }
    ProjectCardsComeFromGroups(GroupsOf(reply.grouped), i, j);
  }

  /** The effect run when the project or the filters change: the cursor goes
      back to page 1 and the list is reloaded without a page number. A reply
      that fails or has no keys leaves the cursor on page 1 and the board
      empty; any other reply replaces both. */
  function ProjectChanged(view: BoardView, selected: Option<int>, f: QueryFilters, reply: TaskReply): (r: ReloadOutcome)
    ensures !TruthyNumber(selected) ==> r.view == view.(cursor := InitialCursor) && r.query.None?
    ensures !TruthyNumber(selected) ==> r.notices == [NoProjectSelected]
    ensures TruthyNumber(selected) ==> r.query == Some(QueryFor(selected.value, f, None)) && r.query.value.page.None?
    ensures TruthyNumber(selected) ==> !r.view.isLoading && Layout(r.view.board) == StandardLayout
    ensures TruthyNumber(selected) && (reply.FetchError? || GroupsOf(reply.grouped).Keys == {}) ==>
      r.view.cursor == InitialCursor && TotalCards(r.view.board) == 0
    ensures TruthyNumber(selected) && reply.FetchError? ==> r.notices == [FetchFailed]
    ensures TruthyNumber(selected) && reply.Fetched? && GroupsOf(reply.grouped).Keys == {} ==> r.notices == [NoTasksFound]
    ensures TruthyNumber(selected) && reply.Fetched? && GroupsOf(reply.grouped).Keys != {} ==>
      && r.view.board == Project(GroupsOf(reply.grouped))
      && r.view.cursor == reply.pagination
      && r.notices == []
  {
    Reload(view.(cursor := InitialCursor), selected, f, None, reply)
  }

  // ------------------------------------------------------------------ paging

  /** `handleNextPage`'s guard: the page to load, present only when the
      cursor has a next link. */
  function NextPageRequest(c: Cursor): (page: Option<int>)
    ensures page.Some? <==> TruthyText(c.nextPageUrl)
    ensures page.Some? ==> page.value == c.currentPage + 1
  {
    if TruthyText(c.nextPageUrl) then Some(c.currentPage + 1) else None
  }

  /** `handlePrevPage`'s guard: the page to load, present only when the
      cursor has a previous link. */
  function PrevPageRequest(c: Cursor): (page: Option<int>)
    ensures page.Some? <==> TruthyText(c.prevPageUrl)
    ensures page.Some? ==> page.value == c.currentPage - 1
  {
    if TruthyText(c.prevPageUrl) then Some(c.currentPage - 1) else None
  }

  /** `handleNextPage`: without a next link nothing happens at all; with one,
      the following page of the same project and filters is requested, and
      the reload ends as any reload does. */
  function HandleNextPage(view: BoardView, selected: Option<int>, f: QueryFilters, reply: TaskReply): (r: ReloadOutcome)
    ensures !TruthyText(view.cursor.nextPageUrl) ==> r == ReloadOutcome(view, None, [])
    ensures TruthyText(view.cursor.nextPageUrl) && !TruthyNumber(selected) ==>
      r == ReloadOutcome(view, None, [NoProjectSelected])
    ensures TruthyText(view.cursor.nextPageUrl) && TruthyNumber(selected) ==>
      && r.query == Some(QueryFor(selected.value, f, Some(view.cursor.currentPage + 1)))
      && !r.view.isLoading && Layout(r.view.board) == StandardLayout
    ensures TruthyText(view.cursor.nextPageUrl) && TruthyNumber(selected) && view.cursor.currentPage >= 0 ==>
      r.query.Some? && r.query.value.page == Some(view.cursor.currentPage + 1)
    ensures TruthyText(view.cursor.nextPageUrl) && TruthyNumber(selected)
            && (reply.FetchError? || GroupsOf(reply.grouped).Keys == {}) ==>
      r.view.cursor == view.cursor && TotalCards(r.view.board) == 0 && |r.notices| == 1
    ensures TruthyText(view.cursor.nextPageUrl) && TruthyNumber(selected)
            && reply.Fetched? && GroupsOf(reply.grouped).Keys != {} ==>
      r.view.board == Project(GroupsOf(reply.grouped)) && r.view.cursor == reply.pagination && r.notices == []
  {
    match NextPageRequest(view.cursor)
    case None => ReloadOutcome(view, None, [])
    case Some(p) => Reload(view, selected, f, Some(p), reply)
  }

  /** `handlePrevPage`: without a previous link nothing happens at all; with
      one, the preceding page of the same project and filters is requested,
      and the reload ends as any reload does. */
  function HandlePrevPage(view: BoardView, selected: Option<int>, f: QueryFilters, reply: TaskReply): (r: ReloadOutcome)
    ensures !TruthyText(view.cursor.prevPageUrl) ==> r == ReloadOutcome(view, None, [])
    ensures TruthyText(view.cursor.prevPageUrl) && !TruthyNumber(selected) ==>
      r == ReloadOutcome(view, None, [NoProjectSelected])
    ensures TruthyText(view.cursor.prevPageUrl) && TruthyNumber(selected) ==>
      && r.query == Some(QueryFor(selected.value, f, Some(view.cursor.currentPage - 1)))
      && !r.view.isLoading && Layout(r.view.board) == StandardLayout
    ensures TruthyText(view.cursor.prevPageUrl) && TruthyNumber(selected) && view.cursor.currentPage > 1 ==>
      r.query.Some? && r.query.value.page == Some(view.cursor.currentPage - 1)
    ensures TruthyText(view.cursor.prevPageUrl) && TruthyNumber(selected)
            && (reply.FetchError? || GroupsOf(reply.grouped).Keys == {}) ==>
      r.view.cursor == view.cursor && TotalCards(r.view.board) == 0 && |r.notices| == 1
    ensures TruthyText(view.cursor.prevPageUrl) && TruthyNumber(selected)
            && reply.Fetched? && GroupsOf(reply.grouped).Keys != {} ==>
      r.view.board == Project(GroupsOf(reply.grouped)) && r.view.cursor == reply.pagination && r.notices == []
  {
    match PrevPageRequest(view.cursor)
    case None => ReloadOutcome(view, None, [])
    case Some(p) => Reload(view, selected, f, Some(p), reply)
  }

  /** `handlePageClick`: the clicked page is requested, with no guard. */
  function HandlePageClick(view: BoardView, selected: Option<int>, f: QueryFilters, page: int, reply: TaskReply): (r: ReloadOutcome)
    ensures !TruthyNumber(selected) ==> r == ReloadOutcome(view, None, [NoProjectSelected])
    ensures TruthyNumber(selected) ==> r.query == Some(QueryFor(selected.value, f, Some(page)))
    ensures TruthyNumber(selected) && page != 0 ==> r.query.Some? && r.query.value.page == Some(page)
    ensures TruthyNumber(selected) && page == 0 ==> r.query.Some? && r.query.value.page.None?
    ensures TruthyNumber(selected) ==> !r.view.isLoading && Layout(r.view.board) == StandardLayout
    ensures TruthyNumber(selected) && (reply.FetchError? || GroupsOf(reply.grouped).Keys == {}) ==>
      r.view.cursor == view.cursor && TotalCards(r.view.board) == 0 && |r.notices| == 1
    ensures TruthyNumber(selected) && reply.Fetched? && GroupsOf(reply.grouped).Keys != {} ==>
      r.view.board == Project(GroupsOf(reply.grouped)) && r.view.cursor == reply.pagination && r.notices == []
  {
    Reload(view, selected, f, Some(page), reply)
  }

  /** The component starts on page 1 of 1 with no links, so neither paging
      handler does anything until a reply has arrived. */
  lemma InitialPagingIsInert(selected: Option<int>, f: QueryFilters, reply: TaskReply)
    ensures HandleNextPage(InitialView, selected, f, reply) == ReloadOutcome(InitialView, None, [])
    ensures HandlePrevPage(InitialView, selected, f, reply) == ReloadOutcome(InitialView, None, [])
  {
  }

  /** Paging follows the server's cursor: once a reload has shown a page,
      the arrows ask for the neighbouring pages of that reply's cursor, for
      the same project and filters, exactly when the reply carried the
      matching link. */
  lemma PagingFollowsReply(view: BoardView, selected: Option<int>, f: QueryFilters, page: Option<int>,
                           reply: TaskReply, next: TaskReply)
    requires TruthyNumber(selected) && reply.Fetched? && GroupsOf(reply.grouped).Keys != {}
    ensures var shown := Reload(view, selected, f, page, reply).view;
      && (HandleNextPage(shown, selected, f, next).query.Some? <==> TruthyText(reply.pagination.nextPageUrl))
      && (TruthyText(reply.pagination.nextPageUrl) ==>
            HandleNextPage(shown, selected, f, next).query
              == Some(QueryFor(selected.value, f, Some(reply.pagination.currentPage + 1))))
      && (HandlePrevPage(shown, selected, f, next).query.Some? <==> TruthyText(reply.pagination.prevPageUrl))
      && (TruthyText(reply.pagination.prevPageUrl) ==>
            HandlePrevPage(shown, selected, f, next).query
              == Some(QueryFor(selected.value, f, Some(reply.pagination.currentPage - 1))))
  {
    var shown := Reload(view, selected, f, page, reply).view;
    assert shown.cursor == reply.pagination;
  }

  /** A project change whose reload fails or finds nothing leaves the cursor
      on page 1 with no links, so both arrows then do nothing. */
  lemma FailedProjectChangeStopsPaging(view: BoardView, selected: Option<int>, f: QueryFilters,
                                       reply: TaskReply, next: TaskReply)
    requires reply.FetchError? || GroupsOf(reply.grouped).Keys == {}
    ensures var shown := ProjectChanged(view, selected, f, reply).view;
      && HandleNextPage(shown, selected, f, next) == ReloadOutcome(shown, None, [])
      && HandlePrevPage(shown, selected, f, next) == ReloadOutcome(shown, None, [])
  {
    var shown := ProjectChanged(view, selected, f, reply).view;
    assert shown.cursor == InitialCursor;
  }

  // ----------------------------------------------------------- card creation

  /** The new-card form. An empty priority is `None`. */
  datatype CardDraft = CardDraft(title: string, estimatedTime: string, description: string, priority: Option<int>)

  const EmptyDraft: CardDraft := CardDraft("", "", "", None)

  /** The creation request: the project in the URL and the card's fields. */
  datatype CreateRequest = CreateRequest(
    projectId: int, title: string, estimatedTime: string, description: string,
    status: string, priority: Option<int>)

  /** `handleSubmit`'s check: the title must have a non-whitespace character
      and a project must be selected. The request carries the title as typed
      and the status of the target column. */
  function ValidateDraft(draft: CardDraft, selected: Option<int>, columnId: int): (r: Result<CreateRequest, BoardNotice>)
    ensures r.Success? <==>
      (exists i :: 0 <= i < |draft.title| && !IsJsWhitespace(draft.title[i])) && TruthyNumber(selected)
    ensures r.Failure? ==> r.error == InvalidTitle
    ensures r.Success? ==> && r.value.projectId == selected.value
                           && r.value.status == TaskUtils.StatusByColumnId(columnId)
                           && r.value.title == draft.title && r.value.description == draft.description
                           && r.value.estimatedTime == draft.estimatedTime && r.value.priority == draft.priority
  {
    if Trim(draft.title) != "" && TruthyNumber(selected) then
      Success(CreateRequest(selected.value, draft.title, draft.estimatedTime, draft.description,
                            TaskUtils.StatusByColumnId(columnId), draft.priority))
    else Failure(InvalidTitle)
  }

  /** The task the server returns after creation. */
  datatype CreatedTask = CreatedTask(id: int, title: string, estimatedTime: Option<int>, description: string, priority: Option<int>)

  /** The card appended after creation: five fields copied, no status, no
      project, no assignees. */
  function CreatedCard(t: CreatedTask): (c: Card)
    ensures c.status.None? && c.projectId.None? && c.assignedUsers.None?
    ensures c.id == t.id && c.title == t.title && c.estimatedTime == t.estimatedTime
    ensures c.description == t.description && c.priority == t.priority
  {
    Card(t.id, t.title, t.description, None, t.estimatedTime, t.priority, None, None)
  }

  /** The answer to the creation request. `CreatedNoData` is a 2xx reply
      whose body has no `data` record: the success notice is shown, reading
      the new task's id then throws, and the `catch` shows the error notice. */
  datatype CreateReply = CreateError | Created(task: CreatedTask) | CreatedNoData

  /** The form state: the draft and which columns show their form. */
  datatype CardForm = CardForm(draft: CardDraft, visible: map<int, bool>)

  /** The state after a submit, the request sent (if any), and the notices
      in the order shown. */
  datatype SubmitOutcome = SubmitOutcome(board: Board, form: CardForm, request: Option<CreateRequest>, notices: seq<BoardNotice>)

  /** `handleSubmit(columnId)`. An invalid draft sends nothing and changes
      nothing; a failed request changes nothing; a created task is appended
      to the column, the draft is cleared and that column's form hidden. */
  function HandleSubmit(board: Board, form: CardForm, selected: Option<int>, columnId: int, reply: CreateReply): (r: SubmitOutcome)
    ensures r.request.Some? <==> ValidateDraft(form.draft, selected, columnId).Success?
    ensures r.request.Some? ==> r.request.value == ValidateDraft(form.draft, selected, columnId).value
    ensures r.request.None? ==> r.board == board && r.form == form && r.notices == [InvalidTitle]
    ensures r.request.Some? && reply.CreateError? ==> r.board == board && r.form == form && r.notices == [CreateFailed]
    ensures r.request.Some? && reply.CreatedNoData? ==>
      r.board == board && r.form == form && r.notices == [TaskCreated, CreateFailed]
    ensures r.request.Some? && reply.Created? ==>
      && r.board == AddCard(board, columnId, CreatedCard(reply.task))
      && r.form.draft == EmptyDraft
      && columnId in r.form.visible && !r.form.visible[columnId]
      && (forall k :: k in form.visible && k != columnId ==> k in r.form.visible && r.form.visible[k] == form.visible[k])
      && r.notices == [TaskCreated]
  {
    match ValidateDraft(form.draft, selected, columnId)
    case Failure(n) => SubmitOutcome(board, form, None, [n])
    case Success(request) =>
      match reply
      case CreateError => SubmitOutcome(board, form, Some(request), [CreateFailed])
      case CreatedNoData => SubmitOutcome(board, form, Some(request), [TaskCreated, CreateFailed])
      case Created(task) =>
        SubmitOutcome(AddCard(board, columnId, CreatedCard(task)),
                      CardForm(EmptyDraft, form.visible[columnId := false]),
                      Some(request), [TaskCreated])
  }

  /** The request asks for the column's status, but the card appended to the
      column has none: status and column disagree after a local creation. */
  lemma CreatedCardLacksStatus(board: Board, form: CardForm, selected: Option<int>, columnId: int, task: CreatedTask)
    requires Layout(board) == StandardLayout && TaskUtils.IsColumnId(columnId)
    requires ValidateDraft(form.draft, selected, columnId).Success?
    ensures var r := HandleSubmit(board, form, selected, columnId, Created(task));
      && TaskUtils.IsStatus(r.request.value.status)
      && var col := r.board.columns[columnId - 1];
      && col.id == columnId && |col.cards| > 0 && col.cards[|col.cards| - 1].status.None?
  {
    var k := columnId - 1;
    assert Layout(board)[k] == StandardLayout[k];
    AppendedCardLast(board, columnId, CreatedCard(task));
  }

  lemma AppendedCardLast(board: Board, columnId: int, card: Card)
    requires Layout(board) == StandardLayout && TaskUtils.IsColumnId(columnId)
    ensures var col := AddCard(board, columnId, card).columns[columnId - 1];
      col.id == columnId && |col.cards| > 0 && col.cards[|col.cards| - 1] == card
  {
    var k := columnId - 1;
    assert Layout(board)[k] == StandardLayout[k];
    assert Layout(AddCard(board, columnId, card))[k] == StandardLayout[k];
  }

  // --------------------------------------------------------------- card move

  /** The HTTP status the status-save endpoint denies permission with. */
  const PermissionDeniedStatus: int := 400

  /** The answer to a status save; an error may carry an HTTP status. */
  datatype SaveReply = Saved | SaveError(httpStatus: Option<int>)

  /** `saveTaskStatus`'s notice: a report of the new status on success, the
      permission warning on a 400, and the generic warning on any other
      failure. */
  function StatusSaveNotice(taskId: int, destColumnId: int, reply: SaveReply): (n: BoardNotice)
    ensures n.Variant() == Notices.Warning <==> reply.SaveError?
    ensures n == NoPermission <==> reply == SaveError(Some(PermissionDeniedStatus))
    ensures reply.Saved? ==> n == StatusUpdated(taskId, TaskUtils.StatusByColumnId(destColumnId))
  {
    match reply
    case Saved => StatusUpdated(taskId, TaskUtils.StatusByColumnId(destColumnId))
    case SaveError(status) =>
      if status == Some(PermissionDeniedStatus) then NoPermission else StatusUpdateFailed
  }

  /** The status-save request for a moved card. */
  datatype StatusRequest = StatusRequest(taskId: int, status: string)

  datatype MoveOutcome = MoveOutcome(board: Board, request: StatusRequest, notice: BoardNotice)

  /** `handleCardMove`: the board becomes the board library's result `moved`
      and stays so whatever the save returns; the save asks for the
      destination column's status. */
  function HandleCardMove(current: Board, moved: Board, card: Card, destColumnId: int, reply: SaveReply): (r: MoveOutcome)
    ensures r.board == moved
    ensures r.request.taskId == card.id && r.request.status == TaskUtils.StatusByColumnId(destColumnId)
    ensures r.notice == StatusSaveNotice(card.id, destColumnId, reply)
  {
    MoveOutcome(moved, StatusRequest(card.id, TaskUtils.StatusByColumnId(destColumnId)),
                StatusSaveNotice(card.id, destColumnId, reply))
  }

  /** A rejected move is not rolled back: the board after a permission
      failure is the board after a success. */
  lemma RejectedMoveNotReverted(current: Board, moved: Board, card: Card, destColumnId: int)
    ensures HandleCardMove(current, moved, card, destColumnId, SaveError(Some(PermissionDeniedStatus))).board
         == HandleCardMove(current, moved, card, destColumnId, Saved).board
    ensures HandleCardMove(current, moved, card, destColumnId, SaveError(Some(PermissionDeniedStatus))).notice.Text()
         == "You don't have permission"
  {
  }

  // ------------------------------------------------------------ card delete

  /** The value `removeCard` receives as its card id: an id, or (as
      `handleCardDelete` passes it) the whole current board. */
  datatype RemoveArg = IdArg(id: int) | BoardArg(board: Board)

  /** `card.id !== cardId`: a number is never strictly equal to an object. */
  function DiffersFrom(arg: RemoveArg): Card -> bool
  {
    match arg
    case IdArg(id) => KeepsOtherIds(id)
    case BoardArg(_) => (c: Card) => true
  }

  /** The update `removeCard` queues, for whatever it was given as id. */
  function RemoveByArg(b: Board, arg: RemoveArg): (r: Board)
    ensures Layout(r) == Layout(b)
    ensures arg.IdArg? ==> r == RemoveCard(b, arg.id)
  {
    Board(seq(|b.columns|, i requires 0 <= i < |b.columns| =>
      b.columns[i].(cards := Seqs.Filter(b.columns[i].cards, DiffersFrom(arg)))))
  }

  /** Given the board in place of an id, the queued update removes nothing. */
  lemma RemoveByBoardKeepsEveryCard(b: Board, other: Board)
    ensures RemoveByArg(b, BoardArg(other)) == b
  {
    var r := RemoveByArg(b, BoardArg(other));
    forall i | 0 <= i < |b.columns|
      ensures r.columns[i] == b.columns[i]
    {
      Seqs.FilterAllKept(b.columns[i].cards, DiffersFrom(BoardArg(other)));
    }
  }

  /** `handleCardDelete` as written: the updater calls `removeCard` with the
      current board as the id and returns what `removeCard` returns, which is
      nothing, so the board state becomes `undefined` (`None`); the update
      `removeCard` queues is the second component, and it removes nothing. */
  function CardDeleteAsWritten(b: Board, card: Card): (r: (Option<Board>, Board))
    ensures r.0.None?
    ensures r.1 == b
  {
    RemoveByBoardKeepsEveryCard(b, b);
    (None, RemoveByArg(b, BoardArg(b)))
  }

  /** Deleting a card that is on the board neither leaves the board without
      it nor keeps a board at all. */
  lemma CardDeleteAsWrittenLosesBoard(b: Board, card: Card)
    requires HasCard(b, card.id)
    ensures CardDeleteAsWritten(b, card).0 != Some(RemoveCard(b, card.id))
    ensures HasCard(CardDeleteAsWritten(b, card).1, card.id)
  {
  }

  /** `handleCardDelete` as evidently intended: `removeCard(card.id)`. */
  function CardDelete(b: Board, card: Card): (r: Board)
    ensures r == RemoveByArg(b, IdArg(card.id))
    ensures Layout(r) == Layout(b) && !HasCard(r, card.id)
  {
    RemoveCard(b, card.id)
  }

  /** On a board with distinct card ids, deleting a card that is there
      removes exactly that one card; deleting it again changes nothing. */
  lemma CardDeleteRemovesOne(b: Board, card: Card)
    requires UniqueCardIds(b) && HasCard(b, card.id)
    ensures TotalCards(CardDelete(b, card)) == TotalCards(b) - 1
    ensures CardDelete(CardDelete(b, card), card) == CardDelete(b, card)
  {
    RemoveCardCountUnique(b, card.id);
    RemoveCardIdempotent(b, card.id);
  }
}
