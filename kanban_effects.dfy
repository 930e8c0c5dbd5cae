/** The board's effects: which actions follow an action once the API has
    answered, and what is kept in the browser's local storage. API answers are
    parameters; each effect is the function from the triggering action and
    the answer to the actions it emits. */
module KanbanEffects {
  import opened Common
  import opened KanbanModels
  import opened KanbanStore

  /** An HTTP answer: its payload, or the failure with the server's message if it sent one. */
  datatype ApiOutcome<T> = ApiOk(data: T) | ApiError(message: Option<string>)

  /** The board's entries in local storage: the active project id under
      `devboard.activeProjectId` and each project's task snapshot under
      `devboard.kanban.{projectId}`. */
  datatype LocalStore = LocalStore(activeProjectId: Option<string>, snapshots: map<string, seq<TaskDto>>)

  const LoadProjectsFallback: string := "No se pudieron cargar proyectos."
  const CreateProjectFallback: string := "No se pudo crear el proyecto."
  const LoadTasksFallback: string := "No se pudieron cargar tareas."
  const CreateTaskFallback: string := "No se pudo crear la tarea."
  const MoveTaskFallback: string := "No se pudo mover la tarea."

  /** `error.error?.message ?? fallback` */
  function ErrorText<T>(outcome: ApiOutcome<T>, fallback: string): (r: string)
    requires outcome.ApiError?
    ensures outcome.message.Some? ==> r == outcome.message.value
    ensures outcome.message.None? ==> r == fallback
  {
    outcome.message.GetOr(fallback)
  }

  /** `loadProjects$` */
  function LoadProjectsEffect(outcome: ApiOutcome<seq<ProjectDto>>): (r: Action)
    ensures outcome.ApiOk? ==> r == LoadProjectsSuccess(outcome.data)
    ensures outcome.ApiError? ==> r == LoadProjectsFailure(ErrorText(outcome, LoadProjectsFallback))
  {
    match outcome
    case ApiOk(projects) => LoadProjectsSuccess(projects)
    case ApiError(_) => LoadProjectsFailure(ErrorText(outcome, LoadProjectsFallback))
  }

  /** `createProject$` */
  function CreateProjectEffect(outcome: ApiOutcome<ProjectDto>): (r: Action)
    ensures outcome.ApiOk? ==> r == CreateProjectSuccess(outcome.data)
    ensures outcome.ApiError? ==> r == CreateProjectFailure(ErrorText(outcome, CreateProjectFallback))
  {
    match outcome
    case ApiOk(project) => CreateProjectSuccess(project)
    case ApiError(_) => CreateProjectFailure(ErrorText(outcome, CreateProjectFallback))
  }

  /** `selectCreatedProject$` */
  function SelectCreatedProject(project: ProjectDto): (r: Action)
    ensures r.SelectProject? && r.projectId == project.id
  {
    SelectProject(project.id)
  }

  /** A created project is selected, remembered, and selected again on the
      next start: the board is empty until its tasks load. */
  lemma CreatedProjectStaysSelected(s: KanbanState, project: ProjectDto, store: LocalStore, now: string)
    requires project.id != []
    ensures var selected := Reduce(Reduce(s, CreateProjectSuccess(project), now), SelectCreatedProject(project), now);
      && selected.selectedProjectId == Some(project.id) && selected.tasks == []
      && project in selected.projects
    ensures var remembered := SelectProjectEffect(project.id, store).1;
      InitialSelection(s.projects + [project], remembered.activeProjectId) == SelectProject(project.id)
  {
    var projects := s.projects + [project];
    assert projects[|projects| - 1].id == project.id;
    SelectionSurvivesReload(projects, project.id, store);
  }

  /** `projects.some(project => project.id === id)` */
  predicate HasProject(projects: seq<ProjectDto>, id: string) {
    exists i :: 0 <= i < |projects| && projects[i].id == id
  }

  /** The selection rule of `initSelectedProject$`: the remembered project if
      it is still listed, else the first project, else no project. */
  function InitialSelection(projects: seq<ProjectDto>, stored: Option<string>): (r: Action)
    ensures r.SelectProject? || r == HydrateSelectedProject(None)
    ensures r.SelectProject? ==> HasProject(projects, r.projectId)
    ensures r == HydrateSelectedProject(None) <==> projects == []
  {
    if Present(stored) && HasProject(projects, stored.value) then SelectProject(stored.value)
    else if |projects| > 0 then
      assert projects[0].id == projects[0].id;
      SelectProject(projects[0].id)
    else HydrateSelectedProject(None)
  }

  /** The remembered project wins whenever it is listed; otherwise the first one is taken. */
  lemma SelectionPrefersStored(projects: seq<ProjectDto>, stored: Option<string>)
    ensures Present(stored) && HasProject(projects, stored.value) ==> InitialSelection(projects, stored) == SelectProject(stored.value)
    ensures !(Present(stored) && HasProject(projects, stored.value)) && projects != [] ==>
              InitialSelection(projects, stored) == SelectProject(projects[0].id)
  {
  }

  /** `selectProject$` and `persistSelectedProject$`: selecting a project loads
      its tasks and remembers it. */
  function SelectProjectEffect(projectId: string, store: LocalStore): (r: (Action, LocalStore))
    ensures r.0 == LoadTasks(projectId)
    ensures r.1.activeProjectId == Some(projectId) && r.1.snapshots == store.snapshots
  {
    (LoadTasks(projectId), store.(activeProjectId := Some(projectId)))
  }

  /** A project selected once is selected again on the next start, as long as it is still listed. */
  lemma SelectionSurvivesReload(projects: seq<ProjectDto>, projectId: string, store: LocalStore)
    requires projectId != [] && HasProject(projects, projectId)
    ensures InitialSelection(projects, SelectProjectEffect(projectId, store).1.activeProjectId) == SelectProject(projectId)
  {
  }

  /** `loadTasks$`: a non-empty cached snapshot first, then the API's answer. */
  function LoadTasksEffect(projectId: string, store: LocalStore, outcome: ApiOutcome<seq<TaskDto>>): (r: seq<Action>)
    ensures |r| == 1 || |r| == 2
    ensures |r| == 2 <==> projectId in store.snapshots && store.snapshots[projectId] != []
    ensures |r| == 2 ==> r[0] == LoadTasksSuccess(store.snapshots[projectId])
    ensures outcome.ApiOk? ==> r[|r| - 1] == LoadTasksSuccess(outcome.data)
    ensures outcome.ApiError? ==> r[|r| - 1] == LoadTasksFailure(ErrorText(outcome, LoadTasksFallback))
  {
    var fromCache := if projectId in store.snapshots && store.snapshots[projectId] != []
                     then [LoadTasksSuccess(store.snapshots[projectId])] else [];
    var fromApi := match outcome
                   case ApiOk(tasks) => LoadTasksSuccess(tasks)
                   case ApiError(_) => LoadTasksFailure(ErrorText(outcome, LoadTasksFallback));
    fromCache + [fromApi]
  }

  /** After a load the board shows the API's tasks; when the API fails it
      shows the cached snapshot, or keeps what it had if there is none. */
  lemma LoadShowsLatestTasks(s: KanbanState, projectId: string, store: LocalStore, outcome: ApiOutcome<seq<TaskDto>>, now: string)
    ensures var r := ReduceAll(Reduce(s, LoadTasks(projectId), now), LoadTasksEffect(projectId, store, outcome), now);
      && !r.loadingTasks
      && (outcome.ApiOk? ==> r.tasks == outcome.data && r.error.None?)
      && (outcome.ApiError? ==> r.error == Some(ErrorText(outcome, LoadTasksFallback)))
      && (outcome.ApiError? && projectId in store.snapshots && store.snapshots[projectId] != [] ==> r.tasks == store.snapshots[projectId])
      && (outcome.ApiError? && !(projectId in store.snapshots && store.snapshots[projectId] != []) ==> r.tasks == s.tasks)
  {
    var started := Reduce(s, LoadTasks(projectId), now);
    var actions := LoadTasksEffect(projectId, store, outcome);
    var last := actions[|actions| - 1];
    if |actions| == 2 {
      var cached := Reduce(started, actions[0], now);
      assert actions[1..] == [last];
      assert ReduceAll(started, actions, now) == ReduceAll(cached, [last], now);
      assert [last][1..] == [];
      assert ReduceAll(cached, [last], now) == ReduceAll(Reduce(cached, last, now), [], now);
    } else {
      assert actions == [last];
      assert actions[1..] == [];
      assert ReduceAll(started, actions, now) == ReduceAll(Reduce(started, last, now), [], now);
    }
  }

  /** `createTask$`: nothing happens without a selected project; otherwise the
      API's answer becomes a success or a failure. */
  function CreateTaskEffect(selected: Option<string>, outcome: ApiOutcome<TaskDto>): (r: Option<Action>)
    ensures r.None? <==> !Present(selected)
    ensures r.Some? && outcome.ApiOk? ==> r.value == CreateTaskSuccess(outcome.data)
    ensures r.Some? && outcome.ApiError? ==> r.value == CreateTaskFailure(ErrorText(outcome, CreateTaskFallback))
  {
    if !Present(selected) then None
    else match outcome
      case ApiOk(task) => Some(CreateTaskSuccess(task))
      case ApiError(_) => Some(CreateTaskFailure(ErrorText(outcome, CreateTaskFallback)))
  }

  /** `moveTask$`: a refused move carries the captured status and completion
      time back so that the reducer can roll it back. */
  function MoveTaskEffect(move: Action, outcome: ApiOutcome<TaskDto>): (r: Action)
    requires move.MoveTaskOptimistic?
    ensures outcome.ApiOk? ==> r == MoveTaskSuccess(outcome.data)
    ensures outcome.ApiError? ==> r == MoveTaskFailure(move.taskId, move.previousStatus, move.previousCompletedAt, ErrorText(outcome, MoveTaskFallback))
  {
    match outcome
    case ApiOk(task) => MoveTaskSuccess(task)
    case ApiError(_) => MoveTaskFailure(move.taskId, move.previousStatus, move.previousCompletedAt, ErrorText(outcome, MoveTaskFallback))
  }

  /** A refused move undoes itself: the optimistic move and the failure the
      effect answers with give back the board as it was, with the error shown. */
  lemma RefusedMoveRollsBack(s: KanbanState, move: Action, message: Option<string>, now: string)
    requires move.MoveTaskOptimistic?
    requires CapturedFrom(s.tasks, move.taskId, move.previousStatus, move.previousCompletedAt)
    ensures ReduceAll(s, [move, MoveTaskEffect(move, ApiError(message))], now)
            == s.(error := Some(message.GetOr(MoveTaskFallback)))
  {
    MoveThenFailureRollsBack(s, move.taskId, move.newStatus, move.previousStatus, move.previousCompletedAt, message.GetOr(MoveTaskFallback), now);
  }

  /** `persistTasksSnapshot$`: after a load, a creation or a confirmed move,
      the board of the selected project is saved; without one nothing is. */
  function PersistTasksSnapshot(a: Action, s: KanbanState, store: LocalStore): (r: LocalStore)
    ensures !(a.LoadTasksSuccess? || a.CreateTaskSuccess? || a.MoveTaskSuccess?) || !Present(s.selectedProjectId) ==> r == store
    ensures (a.LoadTasksSuccess? || a.CreateTaskSuccess? || a.MoveTaskSuccess?) && Present(s.selectedProjectId) ==>
              r == store.(snapshots := store.snapshots[s.selectedProjectId.value := s.tasks])
  {
    if (a.LoadTasksSuccess? || a.CreateTaskSuccess? || a.MoveTaskSuccess?) && Present(s.selectedProjectId) then
      store.(snapshots := store.snapshots[s.selectedProjectId.value := s.tasks])
    else store
  }

  /** A saved board is what the next load of that project shows first. */
  lemma SavedSnapshotIsReloaded(a: Action, s: KanbanState, store: LocalStore, outcome: ApiOutcome<seq<TaskDto>>)
    requires a.LoadTasksSuccess? || a.CreateTaskSuccess? || a.MoveTaskSuccess?
    requires Present(s.selectedProjectId) && s.tasks != []
    ensures LoadTasksEffect(s.selectedProjectId.value, PersistTasksSnapshot(a, s, store), outcome)[0] == LoadTasksSuccess(s.tasks)
  {
  }
}
