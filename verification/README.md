# tms-frontend board and menus, modelled in Dafny

This project models the client-side logic of the task management front end (a
React application) as pure Dafny functions over immutable values, and proves
what that logic guarantees. It covers:

- The Kanban board of `Board.jsx`. This is the three-column board value, the
  projection of the server's grouped tasks into columns, and the start and end
  of a reload. It also covers the request a reload sends (endpoint, page and
  filter payload), the paging handlers, card creation with its validation,
  the status save after a drag, and card removal.
- `getStatusByColumnId` of `taskUtils.jsx`.
- The filter menu state of `FiltersMenu.jsx`.
- The page buttons of `Pagination.jsx`.
- The session check of `useAuth.jsx` and the route guard of `ProtectedRoute.jsx`.
- The project fetch of `WorkspaceList.jsx`.
- The user list and assignment reply handling of `InvitationMenu.jsx`.
- The add/remove modes of `MenuComponent.jsx`.

Modelling conventions:

- Each React state update is a function from the old state (and the
  handler's inputs) to the new state.
- A server reply is a parameter: a datatype with one constructor per outcome
  the code branches on.
- A snackbar notice is a returned tag. Each tag has a `Variant()` and the
  fixed text the code shows.
- JavaScript truthiness is spelled out in `JsText`:
  - an optional string is truthy when present and non-empty;
  - an optional number when present and non-zero;
  - an optional list passes `?.length > 0` when present and non-empty.
- `String.prototype.trim` removes the ECMAScript white-space and
  line-terminator characters.
- Modules follow the source files:
  - `TaskUtils`;
  - `KanbanBoard`, for the board value and its card operations;
  - `BoardSync`, for the handlers of `Board.jsx` that talk to the server;
  - `FiltersMenu`, `Pagination`, `UseAuth`, `ProtectedRoute`, `WorkspaceList`,
    `InvitationMenu` and `MenuComponent`.

  The helper modules are `Wrappers`, `Notices`, `Seqs` and `JsText`.

Three behaviours of the code are worth stating up front:

- **No invariant ties a card's status to its column.** Three paths break it:
  - a card created through the form is appended without any status
    (`Board.jsx:245-251`);
  - a dragged card keeps whatever status field the drag library leaves
    (`Board.jsx:302-308`);
  - a loaded card carries the server's status, whatever bucket it came in
    (`Board.jsx:69-80`, `Board.jsx:139-159`).

  `BoardSync.CreatedCardLacksStatus` shows the first path.
- **A permission denial on a status save is HTTP 400**, not 403
  (`Board.jsx:288`).
- **"No tasks found" means that `grouped_tasks` has no keys**
  (`Board.jsx:130-131`). A reply with three empty buckets shows no notice and
  replaces the cursor.

## Model

| member | source | states |
|---|---|---|
| TaskUtils.StatusByColumnId | src/utils/taskUtils.jsx:1-12 | the status is one of the three known statuses exactly when the column id is 1, 2 or 3; any other id gives "" |
| TaskUtils.ColumnIdOfStatus | src/utils/taskUtils.jsx:1-12 | the inverse lookup is defined exactly on the three statuses and yields a valid column id |
| TaskUtils.StatusRoundTrip | src/utils/taskUtils.jsx:1-12 | column id → status → column id and status → column id → status are identities on the valid domains |
| TaskUtils.StatusInjective | src/utils/taskUtils.jsx:1-12 | distinct valid columns have distinct statuses |
| TaskUtils.StatusTable | src/utils/taskUtils.jsx:3-10 | columns 1, 2, 3 map to "todo", "in-progress", "completed", and 0 and 4 to "" |
| KanbanBoard.ThreeColumns | src/components/KanbanBoard/Board.jsx:139-159 | a board built from three card lists has the To Do / In Progress / Done layout and holds the lists in that order |
| KanbanBoard.EmptyBoard | src/components/KanbanBoard/Board.jsx:36-46 | the initial board has the standard three-column layout and no cards |
| KanbanBoard.RemoveById | src/components/KanbanBoard/Board.jsx:319 | a card survives the column filter exactly when it was there and has another id |
| KanbanBoard.RemoveCard | src/components/KanbanBoard/Board.jsx:314-322 | column ids, titles and order are unchanged; no card with the id remains; every other card of each column stays |
| KanbanBoard.RemoveByIdKeepsOrder | src/components/KanbanBoard/Board.jsx:319 | filtering distributes over concatenation, so surviving cards keep their order |
| KanbanBoard.RemoveCardColumns | src/components/KanbanBoard/Board.jsx:317-320 | each column of the result is that column filtered by id |
| KanbanBoard.RemoveAbsentIsNoOp | src/components/KanbanBoard/Board.jsx:314-322 | removing an id not on the board returns the board unchanged |
| KanbanBoard.RemoveCardIdempotent | src/components/KanbanBoard/Board.jsx:314-322 | removing the same id twice is the same as removing it once |
| KanbanBoard.RemoveCardCount | src/components/KanbanBoard/Board.jsx:314-322 | the board loses exactly as many cards as carry the id |
| KanbanBoard.RemoveCountFrom | src/components/KanbanBoard/Board.jsx:317-320 | the same count, column list by column list |
| KanbanBoard.RemoveCardCountUnique | src/components/KanbanBoard/Board.jsx:314-322 | with distinct card ids, removing a present card loses one card and an absent one loses none |
| KanbanBoard.CopiesOfAbsent | src/components/KanbanBoard/Board.jsx:319 | an id on no card is counted zero times |
| KanbanBoard.DroppedOfUnique | src/components/KanbanBoard/Board.jsx:319 | a column holding the id once drops exactly one card |
| KanbanBoard.CopiesOfUnique | src/components/KanbanBoard/Board.jsx:314-322 | with distinct ids, an id on the board is counted exactly once |
| KanbanBoard.AddCard | src/components/KanbanBoard/Board.jsx:208-223 | layout unchanged; the column with the given id gets the card appended at its end, the others are unchanged; an unknown column id leaves the board as it was |
| KanbanBoard.AddThenRemoveRestores | src/components/KanbanBoard/Board.jsx:208-223 | adding a card whose id is not on the board and then removing that id gives back the original board |
| KanbanBoard.AddCardCount | src/components/KanbanBoard/Board.jsx:208-223 | on the standard board, adding grows the card count by one for column ids 1–3 and by zero otherwise |
| KanbanBoard.CardsInThree | src/components/KanbanBoard/Board.jsx:36-46 | the card count of three columns is the sum of their lengths |
| KanbanBoard.MapTasksToCards | src/components/KanbanBoard/Board.jsx:69-80 | one card per task, in order, carrying id, title, description, status, estimated time, priority, project id and assignees of its task |
| KanbanBoard.MapTasksToCardsAppend | src/components/KanbanBoard/Board.jsx:69-80 | the mapping distributes over concatenation |
| KanbanBoard.GroupTasks | src/components/KanbanBoard/Board.jsx:144 | a bucket with a task list contributes exactly that list; a missing key or a bucket without `tasks` contributes none |
| KanbanBoard.TaskToCard | src/components/KanbanBoard/Board.jsx:70-79 | the card carries the task's id, title, description, estimated time and priority, and its status, project and assignees as present values |
| KanbanBoard.TaskToCardForgetsOnlyCreatedAt | src/components/KanbanBoard/Board.jsx:70-79 | two tasks give the same card exactly when they differ at most in their creation time |
| KanbanBoard.Project | src/components/KanbanBoard/Board.jsx:139-159 | the board is the standard layout with the "todo", "in-progress" and "completed" buckets mapped into columns 1, 2, 3 |
| KanbanBoard.ProjectUsesColumnStatus | src/components/KanbanBoard/Board.jsx:139-159 | column i is filled from the bucket named by the status of column id i |
| KanbanBoard.ProjectCardsComeFromGroups | src/components/KanbanBoard/Board.jsx:139-159 | every projected card is the card of the task at the same position in its column's bucket |
| BoardSync.BoardNoticeKinds | src/components/KanbanBoard/Board.jsx:84-296 | the board's error notices are exactly the failed fetch and the failed creation; its warnings exactly the invalid title, the permission denial and the failed status save; its only success the created task; the rest are informational |
| BoardSync.BoardNoticeTextsDistinct | src/components/KanbanBoard/Board.jsx:84-296 | distinct fixed-text notices show distinct texts |
| BoardSync.FromMenu | src/components/menu/FiltersMenu.jsx:73-76 | the applied menu filters are passed on field for field, all present |
| BoardSync.PayloadOf | src/components/KanbanBoard/Board.jsx:106-123 | each payload field is present exactly when its filter is truthy (lists: non-empty) and then carries the filter's own value |
| BoardSync.PayloadOmitsEmptyFields | src/components/KanbanBoard/Board.jsx:106-123 | no payload field is ever an empty list or an empty string |
| BoardSync.InitialPayloads | src/components/KanbanBoard/Board.jsx:106-123 | the menu's initial filters send only date field, sort field and sort order; the dashboard's initial `{status: []}` sends an empty payload |
| BoardSync.MenuPayloadDateField | src/components/KanbanBoard/Board.jsx:116-118 | after any sequence of menu edits the payload's date field is "created_at" |
| BoardSync.EndpointPath | src/components/KanbanBoard/Board.jsx:101-103 | each task-list path is absolute and ends in `/`, so the project id forms its last segment |
| BoardSync.EndpointPathsDiffer | src/components/KanbanBoard/Board.jsx:101-103 | the assigned-tasks and created-tasks paths differ |
| BoardSync.QueryFor | src/components/KanbanBoard/Board.jsx:101-105 | the assigned-tasks endpoint is used exactly when `assigned_by_manager` is true; the page is sent exactly when truthy; the payload is `PayloadOf` the filters |
| BoardSync.GroupsOf | src/components/KanbanBoard/Board.jsx:127 | a reply without grouped tasks counts as `{}`; a reply with them uses them as sent |
| BoardSync.BeginReload | src/components/KanbanBoard/Board.jsx:84-99 | without a selected project only the "No project selected." notice results; otherwise the board is emptied to the standard layout, loading is set, the cursor kept and the request built |
| BoardSync.CompleteReload | src/components/KanbanBoard/Board.jsx:125-168 | loading always ends; a failure or a key-less reply keeps board and cursor and shows the error or "no tasks" notice; any other reply installs the projected board and the reply's cursor |
| BoardSync.Reload | src/components/KanbanBoard/Board.jsx:82-171 | no project: nothing sent, state unchanged, one notice; otherwise exactly the built request is sent, loading ends and the layout is standard; a failure leaves an empty board, the old cursor and the error notice; a key-less reply the same with the "no tasks" notice; any other reply shows the projected board and the reply's cursor with no notice |
| BoardSync.ReloadShowsOnlyReply | src/components/KanbanBoard/Board.jsx:88-159 | after a reload every card shown is the card of a task in the reply's bucket for its column; nothing from before survives |
| BoardSync.ProjectChanged | src/components/KanbanBoard/Board.jsx:173-181 | the cursor is reset to page 1 and the reload requests no page number; a failed or key-less reply leaves page 1 and an empty board with its one notice, any other reply shows the projected buckets and the reply's cursor |
| BoardSync.NextPageRequest | src/components/KanbanBoard/Board.jsx:187-191 | a page is requested exactly when there is a next link, and it is the current page plus one |
| BoardSync.PrevPageRequest | src/components/KanbanBoard/Board.jsx:193-197 | a page is requested exactly when there is a previous link, and it is the current page minus one |
| BoardSync.HandleNextPage | src/components/KanbanBoard/Board.jsx:187-191 | without a next link nothing changes and nothing is sent; with one and no project only "No project selected." results; with one and a project, page current+1 of that project and those filters is requested, and the board and cursor end as the reply dictates |
| BoardSync.HandlePrevPage | src/components/KanbanBoard/Board.jsx:193-197 | without a previous link nothing changes and nothing is sent; with one and no project only "No project selected." results; with one and a project, page current−1 of that project and those filters is requested, and the board and cursor end as the reply dictates |
| BoardSync.HandlePageClick | src/components/KanbanBoard/Board.jsx:199-201 | with no project only the "No project selected." notice results; otherwise the reload for the clicked page is requested, with the page in the URL unless it is 0, and the board and cursor end as the reply dictates |
| BoardSync.InitialPagingIsInert | src/components/KanbanBoard/Board.jsx:62-67 | from the initial cursor neither Next nor Previous does anything |
| BoardSync.PagingFollowsReply | src/components/KanbanBoard/Board.jsx:187-197 | after a successful reload, Next and Previous request the neighbours of the reply's current page, for the same project and filters, exactly when the reply carried that link |
| BoardSync.FailedProjectChangeStopsPaging | src/components/KanbanBoard/Board.jsx:173-197 | after a project change whose reply fails or has no keys, the cursor is page 1 with no links and both arrows do nothing |
| BoardSync.ValidateDraft | src/components/KanbanBoard/Board.jsx:226-235 | a request is built exactly when the title has a non-white-space character and a project is selected; it carries the draft's fields and the column's status; otherwise the "valid title" warning |
| BoardSync.CreatedCard | src/components/KanbanBoard/Board.jsx:245-251 | the appended card copies id, title, estimated time, description and priority from the created task and has no status, project or assignees |
| BoardSync.HandleSubmit | src/components/KanbanBoard/Board.jsx:225-264 | invalid draft: nothing sent or changed, the warning; otherwise the validated request is sent; failure: board and form unchanged, the error notice; a 2xx reply without data: board and form unchanged, the success notice then the error notice; success: card appended to its column, draft cleared, that column's form hidden, other forms untouched, the success notice |
| BoardSync.CreatedCardLacksStatus | src/components/KanbanBoard/Board.jsx:228-251 | although the request carries a valid status, the card appended to the column has none |
| BoardSync.AppendedCardLast | src/components/KanbanBoard/Board.jsx:208-215 | on the standard board the added card is the last card of column `columnId` |
| BoardSync.StatusSaveNotice | src/components/KanbanBoard/Board.jsx:277-296 | the notice is a warning exactly when the save failed, and the permission notice exactly when it failed with status 400; success reports the new status |
| BoardSync.HandleCardMove | src/components/KanbanBoard/Board.jsx:302-308 | the board is the drag library's result whatever the save reply; the save carries the card's id and the destination column's status |
| BoardSync.RejectedMoveNotReverted | src/components/KanbanBoard/Board.jsx:277-308 | a move rejected for lack of permission leaves the same board as an accepted one and says "You don't have permission" |
| BoardSync.RemoveByArg | src/components/KanbanBoard/Board.jsx:314-322 | the update `removeCard` queues keeps the layout and, for an id, is `RemoveCard` |
| BoardSync.RemoveByBoardKeepsEveryCard | src/components/KanbanBoard/Board.jsx:319 | compared against an object in place of an id, the filter keeps every card |
| BoardSync.CardDeleteAsWritten | src/components/KanbanBoard/Board.jsx:324-326 | the delete handler's updater leaves no board; the update it queues returns the board unchanged |
| BoardSync.CardDeleteAsWrittenLosesBoard | src/components/KanbanBoard/Board.jsx:324-326 | deleting a card that is on the board neither yields the board without it nor removes it |
| BoardSync.CardDelete | src/components/KanbanBoard/Board.jsx:314-326 | the intended delete keeps the layout and leaves no card with the deleted id |
| BoardSync.CardDeleteRemovesOne | src/components/KanbanBoard/Board.jsx:314-326 | with distinct ids the intended delete removes exactly one card and is idempotent |
| FiltersMenu.RemoveAll | src/components/menu/FiltersMenu.jsx:34 | a value survives exactly when it was there and differs from the unchecked one |
| FiltersMenu.ToggleStatus | src/components/menu/FiltersMenu.jsx:29-37 | checking appends the value; unchecking removes every copy and keeps all other values; no other filter changes |
| FiltersMenu.TogglePriority | src/components/menu/FiltersMenu.jsx:39-47 | the same for the priority list |
| FiltersMenu.ClickStatus | src/components/menu/FiltersMenu.jsx:101-107 | a click on a checkbox rendered from `includes` flips whether that status is selected and no other |
| FiltersMenu.ClickPriority | src/components/menu/FiltersMenu.jsx:126-132 | the same for a priority checkbox |
| FiltersMenu.SetDateRange | src/components/menu/FiltersMenu.jsx:49-55 | sets the date range and nothing else |
| FiltersMenu.SetSortBy | src/components/menu/FiltersMenu.jsx:57-63 | sets the sort field and nothing else |
| FiltersMenu.SetSortOrder | src/components/menu/FiltersMenu.jsx:65-71 | sets the sort order and nothing else |
| FiltersMenu.SetAssignedByManager | src/components/menu/FiltersMenu.jsx:78-83 | sets the assigned-by-manager flag and nothing else |
| FiltersMenu.Reset | src/components/menu/FiltersMenu.jsx:7-23 | every field returns to its initial value |
| FiltersMenu.ResetIdempotent | src/components/menu/FiltersMenu.jsx:21-23 | resetting twice is resetting once, and both give the initial filters |
| FiltersMenu.ToggleMenu | src/components/menu/FiltersMenu.jsx:25-27 | the menu opens or closes and the filters stay |
| FiltersMenu.Apply | src/components/menu/FiltersMenu.jsx:73-76 | the current filters are handed to the parent unchanged and the menu closes |
| FiltersMenu.AppendAbsentNoDuplicates | src/components/menu/FiltersMenu.jsx:33 | appending a value not yet selected keeps the list free of duplicates |
| FiltersMenu.StepWellFormed | src/components/menu/FiltersMenu.jsx:29-83 | every checkbox click, setter and reset keeps the lists duplicate-free and the date field "created_at" |
| FiltersMenu.RunWellFormed | src/components/menu/FiltersMenu.jsx:29-83 | the same for any sequence of such events |
| FiltersMenu.ReachableFiltersWellFormed | src/components/menu/FiltersMenu.jsx:7-83 | every filter state reachable from the initial one is well formed |
| FiltersMenu.ClickStatusTwiceRestores | src/components/menu/FiltersMenu.jsx:29-37 | checking and then unchecking an unselected status restores the filters |
| FiltersMenu.ClickPriorityTwiceRestores | src/components/menu/FiltersMenu.jsx:39-47 | the same for a priority |
| FiltersMenu.RemoveAppendedAbsent | src/components/menu/FiltersMenu.jsx:32-34 | unchecking a just-appended new value gives back the previous list |
| Pagination.PageNumbers | src/components/pagination/Pagination.jsx:35 | one button per page 1..last_page in order, none for a non-positive last page |
| Pagination.PageNumbersAreTheRange | src/components/pagination/Pagination.jsx:35 | the pages are exactly 1 through last_page, strictly ascending |
| Pagination.ItemProps | src/components/pagination/Pagination.jsx:12-16 | a button is filled exactly when it is the current page, and its click asks for its own number |
| Pagination.PageItems | src/components/pagination/Pagination.jsx:35-47 | button i shows page i+1, requests page i+1, and is filled exactly when that is the current page |
| Pagination.HighlightedOnce | src/components/pagination/Pagination.jsx:12-47 | exactly one button is filled when the current page is in range, none otherwise |
| Pagination.FilledCountFrom | src/components/pagination/Pagination.jsx:12-16 | in a row of consecutive pages at most the current one is filled |
| Pagination.PrevDisabled | src/components/pagination/Pagination.jsx:24 | Previous is disabled exactly on page 1 |
| Pagination.NextDisabled | src/components/pagination/Pagination.jsx:54 | Next is disabled exactly on the last page |
| Pagination.ArrowsFollowHighlight | src/components/pagination/Pagination.jsx:12-61 | with at least one page, Previous is disabled exactly when the first page button is highlighted and Next exactly when the last one is |
| Pagination.ArrowsAtTheEnds | src/components/pagination/Pagination.jsx:20-61 | on a single page both arrows are disabled; on the first of several only Previous, on the last only Next |
| UseAuth.CompleteMe | src/hooks/useAuth.jsx:16-33 | loading ends; success authenticates and verifies; a 2xx reply without data verifies but ends unauthenticated; a 403 failure authenticates and keeps verification; any other failure unauthenticates and keeps verification |
| UseAuth.CheckSession | src/hooks/useAuth.jsx:10-35 | `/me` is requested exactly when a token is present; loading ends; verified exactly for a token and a 2xx reply; authenticated exactly for a token and a success or a 403; verified but unauthenticated exactly for a token and a 2xx reply without data |
| UseAuth.MissingMeDataBreaksInvariant | src/hooks/useAuth.jsx:18-28 | with a token, a 2xx `/me` without data reaches the state verified, unauthenticated, not loading |
| UseAuth.CompleteMeIntended | src/hooks/useAuth.jsx:16-33 | the intended chain: every 2xx reply authenticates and verifies; failures as written |
| UseAuth.CheckSessionIntended | src/hooks/useAuth.jsx:10-35 | the intended check agrees with the written one without a token and on failures, and never ends verified but unauthenticated |
| UseAuth.VerifiedImpliesAuthenticated | src/hooks/useAuth.jsx:6-35 | with the intended check, in every reachable state a verified user is authenticated |
| UseAuth.CompleteMeNeedsInitialFlags | src/hooks/useAuth.jsx:24-30 | the failure branch alone does not keep the invariant: a non-403 failure on a verified state clears only authentication, so the intended check relies on starting from the initial, unverified flags |
| ProtectedRoute.Decide | src/components/ProtectedRoute.jsx:8-47 | spinner exactly while loading; redirect to /error with 401 exactly when unauthenticated, with 403 exactly when authenticated but unverified; the outlet exactly when both |
| ProtectedRoute.GuardAfterCheck | src/components/ProtectedRoute.jsx:5-47 | after the session check as written: no token, a non-403 failure or a 2xx reply without data redirects with 401; a 403 failure redirects with 403; a successful `/me` renders the outlet |
| ProtectedRoute.GuardAfterIntendedCheck | src/components/ProtectedRoute.jsx:5-47 | after the intended check every 2xx `/me` with a token renders the outlet, and the 403 redirect happens exactly for a token and a 403 reply |
| ProtectedRoute.GuardBeforeCheck | src/components/ProtectedRoute.jsx:8-21 | before the check completes the spinner is shown |
| WorkspaceList.ProjectsEndpoint | src/components/List/WorkspaceList.jsx:23-27 | a request is sent exactly for the "user" and "manager" roles, to their own endpoints |
| WorkspaceList.ToItems | src/components/List/WorkspaceList.jsx:38-44 | one item per project, in order, with its id, title and description |
| WorkspaceList.DefaultProject | src/components/List/WorkspaceList.jsx:67-74 | the first project's id exactly when the list is non-empty |
| WorkspaceList.FetchProjects | src/components/List/WorkspaceList.jsx:17-55 | the guard leaves everything unchanged; past it loading ends, the role's endpoint is requested; failure changes nothing else; an empty list reports no projects and allows a retry; a non-empty list fills the items, marks them fetched and selects the first project if none is selected |
| WorkspaceList.FetchOnce | src/components/List/WorkspaceList.jsx:18-37 | after a non-empty list a second fetch sends nothing and changes nothing |
| WorkspaceList.EmptyListIsRetried | src/components/List/WorkspaceList.jsx:32-36 | after an empty list the next fetch sends the request again |
| WorkspaceList.InitialFetchSelectsFirst | src/components/List/WorkspaceList.jsx:47-49 | a first successful fetch selects the first listed project |
| InvitationMenu.MapOptions | src/components/menu/InvitationMenu.jsx:66-70 | one option per user, in order, whose label is the user's e-mail and whose id and avatar are the user's |
| InvitationMenu.UserOptions | src/components/menu/InvitationMenu.jsx:64-70 | the signed-in user is never offered, every other listed user is, and every option comes from a listed user |
| InvitationMenu.UserOptionsKeepOrder | src/components/menu/InvitationMenu.jsx:64-70 | options of a concatenated list are the options of each part in order |
| InvitationMenu.UserOptionsWithoutMe | src/components/menu/InvitationMenu.jsx:65 | without the signed-in user in the list, every user is offered |
| InvitationMenu.InviteNoticeKinds | src/components/menu/InvitationMenu.jsx:43-77 | success only for an added user, info only for an already-added one, errors for both failures, and a distinct text per notice |
| InvitationMenu.FetchUsers | src/components/menu/InvitationMenu.jsx:58-81 | loading ends; a reply with a list replaces the options; a reply without one keeps them; a failure keeps them and shows the error notice |
| InvitationMenu.ClassifyAssignMessage | src/components/menu/InvitationMenu.jsx:43-49 | success exactly for the "assigned" message, info exactly for the "already added" message, no notice for any other |
| InvitationMenu.HandleAddClick | src/components/menu/InvitationMenu.jsx:35-56 | `onUserAdded` is called exactly when the request succeeds, whatever the message; failure shows the error notice |
| MenuComponent.HandleAdd | src/components/menu/MenuComponent.jsx:42-46 | add mode on, remove mode off, "add" signalled |
| MenuComponent.HandleRemove | src/components/menu/MenuComponent.jsx:48-52 | remove mode on, add mode off, "remove" signalled |
| MenuComponent.ActionLabel | src/components/menu/MenuComponent.jsx:79 | the action button says "Add" exactly in add mode, "Remove" otherwise |
| MenuComponent.RunKeepsModesExclusive | src/components/menu/MenuComponent.jsx:26-52 | from exclusive modes any click sequence keeps them exclusive, sends one matching signal per click, and after a click exactly one mode, the last clicked, is on |
| MenuComponent.OptionsListedWhileActive | src/components/menu/MenuComponent.jsx:90-108 | with exclusive modes the option list is rendered at most once, and once exactly while a mode is on |
| MenuComponent.InitialModesExclusive | src/components/menu/MenuComponent.jsx:26-27 | initially neither mode is on and no option list is rendered |
| JsText.TrimStart | src/components/KanbanBoard/Board.jsx:227 | the result is a suffix of the input, starts with a non-white-space character if any, and only white space was dropped |
| JsText.TrimEnd | src/components/KanbanBoard/Board.jsx:227 | the result is a prefix of the input, ends with a non-white-space character if any, and only white space was dropped |
| JsText.Trim | src/components/KanbanBoard/Board.jsx:227 | `trim()` is empty exactly for an all-white-space title; otherwise it starts and ends with a non-white-space character |
| JsText.TrimFacts | src/components/KanbanBoard/Board.jsx:227 | trimming both ends is empty exactly for blank input and keeps the first character left by trimming the start |
| JsText.TrimStartBlank | src/components/KanbanBoard/Board.jsx:227 | trimming the start leaves nothing exactly for blank input |
| JsText.TrimEndNonBlank | src/components/KanbanBoard/Board.jsx:227 | trimming the end of a string that starts with a non-white-space character keeps that character first |
| Seqs.Filter | src/components/KanbanBoard/Board.jsx:319 | `Array.prototype.filter`: an element is kept exactly when it was there and passes the test |
| Seqs.Dropped | src/components/KanbanBoard/Board.jsx:319 | the count of failing elements is zero exactly when every element passes |
| Seqs.FilterAppend | src/components/menu/InvitationMenu.jsx:65 | filtering distributes over concatenation |
| Seqs.FilterLength | src/components/KanbanBoard/Board.jsx:319 | the filtered length is the length minus the elements dropped |
| Seqs.FilterAllKept | src/components/KanbanBoard/Board.jsx:319 | when every element passes, filtering is the identity |
| Seqs.FilterIdempotent | src/components/menu/FiltersMenu.jsx:34 | filtering twice with the same test is filtering once |
| Seqs.FilterNoDuplicates | src/components/menu/FiltersMenu.jsx:34 | filtering a duplicate-free list keeps it duplicate-free |

## Left out

- The drag library's `moveCard` and `moveColumn`: their result is a parameter of `BoardSync.HandleCardMove`, because their code is not part of this model. `handleColumnMove` is left out for the same reason.
- The 300 ms `debounce` around the status save: each drag is modelled as one save. Collapsing a burst of moves into the last one depends on timers, which are not modelled.
- Interleavings of overlapping requests and stale `useCallback` closures: each handler is modelled as running to completion on the state it reads.
- The `url` parameter of `fetchManagerTasks`: every caller passes `null`. URLs are modelled as an endpoint kind plus a project id and page, not as formatted strings.
- A task reply without a `pagination` object: the code would store `undefined` page numbers. The model takes the cursor from the reply as given.
- A user record with an unknown role in `fetchProjects`: the code then reads a missing response and fails. The model sends nothing and ends loading, which is where the `catch`/`finally` leaves the state.
- `fetchUsers` with no signed-in user: the code throws before the request. The model takes the user id as given.
- The cookies written by `useAuth` on success (`userName`, `userEmail`), the token read from cookies (a parameter), navigation, and the snackbar rendering itself (notices are returned tags).
- The card modal, `toggleModal`, `handleCardClick`, `toggleFormVisibility`, the card and column renderers, `getPriorityColor`, and all presentational markup: they hold no logic the core depends on.
- The axios instance with its token refresh, the user context, and the page layouts: these are collaborators outside the named components.
- The search bars and the selection callbacks of the menus (`handleOptionClick`, `handleSelection`): they only store or forward the chosen option.

## Findings

| source | as written | input that shows it | evidently intended | confidence | as-written member | corrected member |
|---|---|---|---|---|---|---|
| src/components/KanbanBoard/Board.jsx:324-326 | `handleCardDelete` calls `removeCard(currentBoard, column, card)` inside a `setBoard` updater. The board is passed where the card id is expected. `removeCard` returns nothing, so the board state becomes `undefined`, and the update it queues compares every card id against the board object and removes nothing. | an `onCardRemove` event fired by the drag library for a card on the board (`Board.jsx:499`); the delete button on a card takes another path, `removeCard(cardId)` in `renderCard.jsx:25`, which is correct | remove the card with that id from every column: `removeCard(card.id)` | high, not executed | BoardSync.CardDeleteAsWritten, BoardSync.CardDeleteAsWrittenLosesBoard | BoardSync.CardDelete, BoardSync.CardDeleteRemovesOne |
| src/hooks/useAuth.jsx:18-28 | A 2xx `/me` reply whose body has no `data` record sets both flags and then throws reading `response.data.data.name`. The `.catch` sees an error without a response and clears `isAuthenticated`, so the hook ends verified but not authenticated. | a token cookie and a 2xx `/me` reply with body `{}` | a 2xx reply is an authenticated, verified session, whether or not its fields can be copied into cookies | medium, not executed | UseAuth.CompleteMe, UseAuth.MissingMeDataBreaksInvariant | UseAuth.CompleteMeIntended, UseAuth.CheckSessionIntended, UseAuth.VerifiedImpliesAuthenticated |
