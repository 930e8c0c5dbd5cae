/** The kanban page: it reads realtime task events, turns drag-and-drop into
    optimistic moves, and keeps per-task caches of issue details, comments
    and labels so that reopening a task does not fetch it again.

    `PageState` is the value of the page's signals; each function below
    gives the state after one page method. The class `KanbanPageView` holds
    the same signals as fields and updates them in place, and each of its
    methods is proved to agree with the matching function. Requests to the
    API are recorded in a log; their answers arrive later, through
    `DetailsLoaded` and `CommentsLoaded`. */
module KanbanPage {
  import opened Common
  import Tasks
  import opened KanbanModels
  import opened KanbanStore
  import opened KanbanEffects

  datatype IssueTab = Summary | Meta | Comments

  const DetailsErrorMessage: string := "No se pudieron cargar los detalles del issue."
  const CommentsErrorMessage: string := "No se pudieron cargar los comentarios."

  datatype PageState = PageState(
    drawerOpen: bool,
    selectedTask: Option<TaskDto>,
    activeTab: IssueTab,
    issueDetails: Option<IssueDetails>,
    issueComments: seq<IssueComment>,
    detailsLoading: bool,
    commentsLoading: bool,
    detailsError: Option<string>,
    commentsError: Option<string>,
    labelsById: map<string, seq<IssueLabel>>,
    detailsCache: map<string, IssueDetails>,
    commentsCache: map<string, seq<IssueComment>>,
    labelsLoading: set<string>,
    dispatched: seq<Action>,
    detailsRequests: seq<string>,
    commentsRequests: seq<string>)

  // ------------------------------------------------------- realtime events

  /** The status a realtime message names, compared exactly (no case folding). */
  function StatusOf(v: Json): (r: Option<TaskStatus>)
    ensures r.Some? <==> exists s: TaskStatus :: v == JString(Tasks.StatusName(s))
    ensures r.Some? ==> v == JString(Tasks.StatusName(r.value))
  {
    StatusNamesAreThree(v);
    if v == JString("Todo") then Some(Tasks.Todo)
    else if v == JString("InProgress") then Some(Tasks.InProgress)
    else if v == JString("Done") then Some(Tasks.Done)
    else None
  }

  lemma StatusNamesAreThree(v: Json)
    ensures (exists s: TaskStatus :: v == JString(Tasks.StatusName(s)))
        <==> v == JString("Todo") || v == JString("InProgress") || v == JString("Done")
  {
    if v == JString("Todo") {
      assert v == JString(Tasks.StatusName(Tasks.Todo));
    } else if v == JString("InProgress") {
      assert v == JString(Tasks.StatusName(Tasks.InProgress));
    } else if v == JString("Done") {
      assert v == JString(Tasks.StatusName(Tasks.Done));
    }
  }

  /** `parseTaskUpdatedEvent`: a record with non-empty string task and
      project ids and a known status becomes an event; a completion time
      that is not a string is dropped, and a missing origin reads `unknown`. */
  function ParseTaskUpdatedEvent(data: Json): (r: Option<TaskUpdatedEvent>)
    ensures r.Some? <==>
      && data.JObject?
      && Present(StringField(data.fields, "taskId"))
      && Present(StringField(data.fields, "projectId"))
      && "status" in data.fields && StatusOf(data.fields["status"]).Some?
    ensures r.Some? ==>
      && data.fields["taskId"] == JString(r.value.taskId) && r.value.taskId != []
      && data.fields["projectId"] == JString(r.value.projectId) && r.value.projectId != []
      && data.fields["status"] == JString(Tasks.StatusName(r.value.status))
      && r.value.completedAt == StringField(data.fields, "completedAt")
      && r.value.updatedFrom == StringField(data.fields, "updatedFrom").GetOr("unknown")
  {
    match data
    case JObject(fields) =>
      var taskId := StringField(fields, "taskId");
      var projectId := StringField(fields, "projectId");
      var status := if "status" in fields then StatusOf(fields["status"]) else None;
      var completedAt := StringField(fields, "completedAt");
      var updatedFrom := StringField(fields, "updatedFrom").GetOr("unknown");
      if !Present(taskId) || !Present(projectId) || status.None? then None
      else Some(TaskUpdatedEvent(taskId.value, projectId.value, status.value, completedAt, updatedFrom))
    case _ => None
  }

  /** The message the server sends for an event: an object with the five
      fields, each a string except a missing completion time. */
  function EventMessage(e: TaskUpdatedEvent): (r: Json)
    ensures r.JObject? && r.fields.Keys == {"taskId", "projectId", "status", "completedAt", "updatedFrom"}
    ensures r.fields["completedAt"] == JNull <==> e.completedAt.None?
  {
    JObject(map[
      "taskId" := JString(e.taskId),
      "projectId" := JString(e.projectId),
      "status" := JString(Tasks.StatusName(e.status)),
      "completedAt" := (if e.completedAt.Some? then JString(e.completedAt.value) else JNull),
      "updatedFrom" := JString(e.updatedFrom)])
  }

  /** Every event the server can send is read back as itself. */
  lemma ParseReadsEventMessage(e: TaskUpdatedEvent)
    requires e.taskId != [] && e.projectId != []
    ensures ParseTaskUpdatedEvent(EventMessage(e)) == Some(e)
  {
    var m := EventMessage(e);
    assert StatusOf(m.fields["status"]).Some?;
    assert StatusOf(m.fields["status"]) == Some(e.status) by {
      var st := StatusOf(m.fields["status"]).value;
      assert Tasks.StatusName(st) == Tasks.StatusName(e.status);
      match st
      case Todo =>
      case InProgress =>
      case Done =>
    }
  }

  /** Anything that is not a record is ignored. */
  lemma NonRecordIgnored(data: Json)
    requires !data.JObject?
    ensures ParseTaskUpdatedEvent(data).None?
  {
  }

  // ------------------------------------------------------------ the caches

  /** `invalidateTaskCache(taskId)`: the three caches forget that one task. */
  function Invalidated(p: PageState, taskId: string): (r: PageState)
    ensures r.detailsCache.Keys == p.detailsCache.Keys - {taskId}
    ensures r.commentsCache.Keys == p.commentsCache.Keys - {taskId}
    ensures r.labelsById.Keys == p.labelsById.Keys - {taskId}
    ensures forall k :: k in r.detailsCache ==> r.detailsCache[k] == p.detailsCache[k]
    ensures forall k :: k in r.commentsCache ==> r.commentsCache[k] == p.commentsCache[k]
    ensures forall k :: k in r.labelsById ==> r.labelsById[k] == p.labelsById[k]
    ensures r.(detailsCache := p.detailsCache, commentsCache := p.commentsCache, labelsById := p.labelsById) == p
  {
    p.(detailsCache := p.detailsCache - {taskId},
       commentsCache := p.commentsCache - {taskId},
       labelsById := p.labelsById - {taskId})
  }

  /** `realtimeHandler`: an event about the selected project invalidates that
      task's caches and is passed to the store; anything else is ignored. */
  function RealtimeHandled(p: PageState, data: Json, selectedProjectId: Option<string>): (r: PageState)
    ensures var e := ParseTaskUpdatedEvent(data);
      if e.Some? && selectedProjectId == Some(e.value.projectId) then
        r == Invalidated(p, e.value.taskId).(dispatched := p.dispatched + [TaskUpdatedFromRealtime(e.value)])
      else r == p
  {
    match ParseTaskUpdatedEvent(data)
    case None => p
    case Some(e) =>
      if selectedProjectId == Some(e.projectId) then
        Invalidated(p, e.taskId).(dispatched := p.dispatched + [TaskUpdatedFromRealtime(e)])
      else p
  }

  /** Events about other projects never reach the store. */
  lemma OtherProjectEventsIgnored(p: PageState, e: TaskUpdatedEvent, selectedProjectId: Option<string>)
    requires e.taskId != [] && e.projectId != []
    requires selectedProjectId != Some(e.projectId)
    ensures RealtimeHandled(p, EventMessage(e), selectedProjectId) == p
  {
    ParseReadsEventMessage(e);
  }

  /** `drop(event, newStatus)`: dropping a task on another column invalidates
      its caches and asks for an optimistic move that remembers the task's
      status and completion time; a missing task or the same column does nothing. */
  function Dropped(p: PageState, task: Option<TaskDto>, newStatus: TaskStatus): (r: PageState)
    ensures task.None? || task.value.status == newStatus ==> r == p
    ensures task.Some? && task.value.status != newStatus ==>
      r == Invalidated(p, task.value.id).(dispatched := p.dispatched + [DropMove(task.value, newStatus)])
  {
    if task.None? || task.value.status == newStatus then p
    else Invalidated(p, task.value.id).(dispatched := p.dispatched + [DropMove(task.value, newStatus)])
  }

  /** The move a drop asks for: it captures the dropped task's status and
      completion time, which is what a refusal needs to roll the move back. */
  function DropMove(task: TaskDto, newStatus: TaskStatus): (r: Action)
    ensures r.MoveTaskOptimistic? && r.taskId == task.id && r.newStatus == newStatus
    ensures CapturedFrom([task], task.id, r.previousStatus, r.previousCompletedAt)
  {
    MoveTaskOptimistic(task.id, newStatus, task.status, task.completedAt)
  }

  /** The tasks of the board are told apart by their ids. */
  predicate IdsUnique(tasks: seq<TaskDto>) {
    forall i, j :: 0 <= i < |tasks| && 0 <= j < |tasks| && tasks[i].id == tasks[j].id ==> i == j
  }

  /** Dropping a task shown on the board and having the server refuse the
      move leaves the board exactly as before the drop, with the error shown. */
  lemma RefusedDropRestoresBoard(s: KanbanState, k: nat, newStatus: TaskStatus, message: Option<string>, now: string)
    requires k < |s.tasks| && IdsUnique(s.tasks)
    ensures var move := DropMove(s.tasks[k], newStatus);
      ReduceAll(s, [move, MoveTaskEffect(move, ApiError(message))], now) == s.(error := Some(message.GetOr(MoveTaskFallback)))
  {
    var t := s.tasks[k];
    assert CapturedFrom(s.tasks, t.id, t.status, t.completedAt);
    RefusedMoveRollsBack(s, DropMove(t, newStatus), message, now);
  }

  /** `openIssueDetails(task)`: the drawer opens on the summary; cached details
      and comments are shown at once, and whatever is not cached is requested. */
  function Opened(p: PageState, task: TaskDto): (r: PageState)
    ensures r.drawerOpen && r.selectedTask == Some(task) && r.activeTab == Summary
    ensures r.detailsError.None? && r.commentsError.None?
    ensures task.id in p.detailsCache ==> r.issueDetails == Some(p.detailsCache[task.id]) && r.detailsRequests == p.detailsRequests
    ensures task.id !in p.detailsCache ==> r.issueDetails.None? && r.detailsLoading && r.detailsRequests == p.detailsRequests + [task.id]
    ensures task.id in p.commentsCache ==> r.issueComments == p.commentsCache[task.id] && r.commentsRequests == p.commentsRequests
    ensures task.id !in p.commentsCache ==> r.issueComments == [] && r.commentsLoading && r.commentsRequests == p.commentsRequests + [task.id]
    ensures r.detailsCache == p.detailsCache && r.commentsCache == p.commentsCache && r.labelsById == p.labelsById
    ensures r.dispatched == p.dispatched
  {
    CommentsShown(DetailsShown(DrawerShown(p, task), task.id), task.id)
  }

  /** The drawer part of `openIssueDetails`. */
  function DrawerShown(p: PageState, task: TaskDto): PageState {
    p.(selectedTask := Some(task), drawerOpen := true, activeTab := Summary, detailsError := None, commentsError := None)
  }

  /** The details part of `openIssueDetails`: the cached copy, or a request. */
  function DetailsShown(p: PageState, taskId: string): PageState {
    if taskId in p.detailsCache then p.(issueDetails := Some(p.detailsCache[taskId]))
    else p.(issueDetails := None, detailsLoading := true, detailsRequests := p.detailsRequests + [taskId])
  }

  /** The comments part of `openIssueDetails`: the cached copy, or a request. */
  function CommentsShown(p: PageState, taskId: string): PageState {
    if taskId in p.commentsCache then p.(issueComments := p.commentsCache[taskId])
    else p.(issueComments := [], commentsLoading := true, commentsRequests := p.commentsRequests + [taskId])
  }

  /** `closeIssueDetails` */
  function Closed(p: PageState): (r: PageState)
    ensures !r.drawerOpen && r.(drawerOpen := p.drawerOpen) == p
  {
    p.(drawerOpen := false)
  }

  /** The answer to `loadIssueDetails(taskId)`: shown and cached with its
      labels, or an error message in its place. */
  function DetailsLoaded(p: PageState, taskId: string, outcome: ApiOutcome<IssueDetails>): (r: PageState)
    ensures !r.detailsLoading
    ensures outcome.ApiOk? ==>
      && r.detailsCache == p.detailsCache[taskId := outcome.data]
      && r.labelsById == p.labelsById[taskId := outcome.data.labels]
      && r.issueDetails == Some(outcome.data) && r.detailsError.None?
    ensures outcome.ApiError? ==>
      && r.detailsCache == p.detailsCache && r.labelsById == p.labelsById
      && r.issueDetails.None? && r.detailsError == Some(DetailsErrorMessage)
    ensures r.commentsCache == p.commentsCache && r.detailsRequests == p.detailsRequests
            && r.commentsRequests == p.commentsRequests && r.dispatched == p.dispatched
  {
    match outcome
    case ApiOk(details) =>
      p.(detailsLoading := false, detailsError := None, issueDetails := Some(details),
         detailsCache := p.detailsCache[taskId := details],
         labelsById := p.labelsById[taskId := details.labels])
    case ApiError(_) =>
      p.(detailsLoading := false, detailsError := Some(DetailsErrorMessage), issueDetails := None)
  }

  /** The answer to `loadIssueComments(taskId)`. */
  function CommentsLoaded(p: PageState, taskId: string, outcome: ApiOutcome<seq<IssueComment>>): (r: PageState)
    ensures !r.commentsLoading
    ensures outcome.ApiOk? ==>
      r.commentsCache == p.commentsCache[taskId := outcome.data] && r.issueComments == outcome.data && r.commentsError.None?
    ensures outcome.ApiError? ==>
      r.commentsCache == p.commentsCache && r.issueComments == [] && r.commentsError == Some(CommentsErrorMessage)
    ensures r.detailsCache == p.detailsCache && r.labelsById == p.labelsById && r.detailsRequests == p.detailsRequests
            && r.commentsRequests == p.commentsRequests && r.dispatched == p.dispatched
  {
    match outcome
    case ApiOk(comments) =>
      p.(commentsLoading := false, commentsError := None, issueComments := comments,
         commentsCache := p.commentsCache[taskId := comments])
    case ApiError(_) =>
      p.(commentsLoading := false, commentsError := Some(CommentsErrorMessage), issueComments := [])
  }

  /** Opening a task, receiving its details and comments, closing the drawer
      and opening the same task again: the second opening shows the cached
      answers and sends no request. */
  lemma ReopenUsesCache(p: PageState, task: TaskDto, details: IssueDetails, comments: seq<IssueComment>)
    ensures var first := Opened(p, task);
            var loaded := CommentsLoaded(DetailsLoaded(first, task.id, ApiOk(details)), task.id, ApiOk(comments));
            var again := Opened(Closed(loaded), task);
            && again.detailsRequests == first.detailsRequests
            && again.commentsRequests == first.commentsRequests
            && again.issueDetails == Some(details)
            && again.issueComments == comments
  {
  }

  /** A drop between the two openings forgets the cached answers, so the
      second opening requests the details and the comments again. */
  lemma DropForcesRefetch(p: PageState, task: TaskDto, details: IssueDetails, comments: seq<IssueComment>, newStatus: TaskStatus)
    requires task.status != newStatus
    ensures var first := Opened(p, task);
            var loaded := CommentsLoaded(DetailsLoaded(first, task.id, ApiOk(details)), task.id, ApiOk(comments));
            var again := Opened(Dropped(loaded, Some(task), newStatus), task);
            && again.detailsRequests == first.detailsRequests + [task.id]
            && again.commentsRequests == first.commentsRequests + [task.id]
  {
    var first := Opened(p, task);
    var loaded := CommentsLoaded(DetailsLoaded(first, task.id, ApiOk(details)), task.id, ApiOk(comments));
    var dropped := Dropped(loaded, Some(task), newStatus);
    assert task.id !in dropped.detailsCache && task.id !in dropped.commentsCache;
  }

  /** `changeProject(projectId)`: an empty id does nothing; otherwise every
      cache and the set of tasks whose labels are loading are emptied, and the
      project is selected. */
  function ProjectChanged(p: PageState, projectId: string): (r: PageState)
    ensures projectId == [] ==> r == p
    ensures projectId != [] ==>
      && r.labelsById == map[] && r.detailsCache == map[] && r.commentsCache == map[] && r.labelsLoading == {}
      && r.dispatched == p.dispatched + [SelectProject(projectId)]
      && r.(labelsById := p.labelsById, detailsCache := p.detailsCache, commentsCache := p.commentsCache,
            labelsLoading := p.labelsLoading, dispatched := p.dispatched) == p
  {
    if projectId == [] then p
    else p.(labelsById := map[], detailsCache := map[], commentsCache := map[], labelsLoading := {},
            dispatched := p.dispatched + [SelectProject(projectId)])
  }

  // --------------------------------------------------------------- the page

  /** The page component, its signals held as fields. */
  class KanbanPageView {
    var drawerOpen: bool
    var selectedTask: Option<TaskDto>
    var activeTab: IssueTab
    var issueDetails: Option<IssueDetails>
    var issueComments: seq<IssueComment>
    var detailsLoading: bool
    var commentsLoading: bool
    var detailsError: Option<string>
    var commentsError: Option<string>
    var labelsById: map<string, seq<IssueLabel>>
    var detailsCache: map<string, IssueDetails>
    var commentsCache: map<string, seq<IssueComment>>
    var labelsLoading: set<string>
    /** The actions dispatched to the store, in order. */
    var dispatched: seq<Action>
    /** The task ids whose details and comments were requested, in order. */
    var detailsRequests: seq<string>
    var commentsRequests: seq<string>

    function State(): PageState
      reads this
    {
      PageState(drawerOpen, selectedTask, activeTab, issueDetails, issueComments, detailsLoading, commentsLoading,
                detailsError, commentsError, labelsById, detailsCache, commentsCache, labelsLoading,
                dispatched, detailsRequests, commentsRequests)
    }

    /** The page as it starts: closed drawer, empty caches, nothing sent. */
    constructor ()
      ensures State() == PageState(false, None, Summary, None, [], false, false, None, None,
                                   map[], map[], map[], {}, [], [], [])
    {
      drawerOpen, selectedTask, activeTab := false, None, Summary;
      issueDetails, issueComments := None, [];
      detailsLoading, commentsLoading := false, false;
      detailsError, commentsError := None, None;
      labelsById, detailsCache, commentsCache, labelsLoading := map[], map[], map[], {};
      dispatched, detailsRequests, commentsRequests := [], [], [];
    }

    method InvalidateTaskCache(taskId: string)
      modifies this
      ensures State() == Invalidated(old(State()), taskId)
    {
      detailsCache := detailsCache - {taskId};
      commentsCache := commentsCache - {taskId};
      labelsById := labelsById - {taskId};
    }

    /** `realtimeHandler`; `selectedProjectId` is the store's selection. */
    method RealtimeHandler(data: Json, selectedProjectId: Option<string>)
      modifies this
      ensures State() == RealtimeHandled(old(State()), data, selectedProjectId)
    {
      var event := ParseTaskUpdatedEvent(data);
      if event.None? {
        return;
      }
      if selectedProjectId == Some(event.value.projectId) {
        InvalidateTaskCache(event.value.taskId);
        dispatched := dispatched + [TaskUpdatedFromRealtime(event.value)];
      }
    }

    method Drop(task: Option<TaskDto>, newStatus: TaskStatus)
      modifies this
      ensures State() == Dropped(old(State()), task, newStatus)
    {
      if task.None? || task.value.status == newStatus {
        return;
      }
      InvalidateTaskCache(task.value.id);
      dispatched := dispatched + [DropMove(task.value, newStatus)];
    }

    method OpenIssueDetails(task: TaskDto)
      modifies this
      ensures State() == Opened(old(State()), task)
    {
      ghost var before := State();
      ShowDrawer(task);
      ShowDetails(task.id);
      ShowComments(task.id);
      assert State() == CommentsShown(DetailsShown(DrawerShown(before, task), task.id), task.id);
    }

    method ShowDrawer(task: TaskDto)
      modifies this
      ensures State() == DrawerShown(old(State()), task)
    {
      selectedTask, drawerOpen, activeTab := Some(task), true, Summary;
      detailsError, commentsError := None, None;
    }

    method ShowDetails(taskId: string)
      modifies this
      ensures State() == DetailsShown(old(State()), taskId)
    {
      if taskId in detailsCache {
        issueDetails := Some(detailsCache[taskId]);
      } else {
        issueDetails := None;
        detailsLoading := true;
        detailsRequests := detailsRequests + [taskId];
      }
    }

    method ShowComments(taskId: string)
      modifies this
      ensures State() == CommentsShown(old(State()), taskId)
    {
      if taskId in commentsCache {
        issueComments := commentsCache[taskId];
      } else {
        issueComments := [];
        commentsLoading := true;
        commentsRequests := commentsRequests + [taskId];
      }
    }

    method CloseIssueDetails()
      modifies this
      ensures State() == Closed(old(State()))
    {
      drawerOpen := false;
    }

    /** The subscription of `loadIssueDetails`, run when the answer arrives. */
    method OnDetails(taskId: string, outcome: ApiOutcome<IssueDetails>)
      modifies this
      ensures State() == DetailsLoaded(old(State()), taskId, outcome)
    {
      match outcome {
        case ApiOk(details) =>
          detailsError := None;
          issueDetails := Some(details);
          detailsCache := detailsCache[taskId := details];
          labelsById := labelsById[taskId := details.labels];
        case ApiError(_) =>
          detailsError := Some(DetailsErrorMessage);
          issueDetails := None;
      }
      detailsLoading := false;
    }

    /** The subscription of `loadIssueComments`, run when the answer arrives. */
    method OnComments(taskId: string, outcome: ApiOutcome<seq<IssueComment>>)
      modifies this
      ensures State() == CommentsLoaded(old(State()), taskId, outcome)
    {
      match outcome {
        case ApiOk(comments) =>
          commentsError := None;
          issueComments := comments;
          commentsCache := commentsCache[taskId := comments];
        case ApiError(_) =>
          commentsError := Some(CommentsErrorMessage);
          issueComments := [];
      }
      commentsLoading := false;
    }

    method ChangeProject(projectId: string)
      modifies this
      ensures State() == ProjectChanged(old(State()), projectId)
    {
      if projectId == [] {
        return;
      }
      labelsById := map[];
      detailsCache := map[];
      commentsCache := map[];
      labelsLoading := {};
      dispatched := dispatched + [SelectProject(projectId)];
    }
  }
}
