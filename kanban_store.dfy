/** The kanban board's store: its state, the actions that change it, and the
    reducer that gives the next state for each action. Every case of the
    reducer builds a new state; nothing is updated in place. */
module KanbanStore {
  import opened Common
  import Tasks
  import opened KanbanModels

  datatype KanbanState = KanbanState(
    projects: seq<ProjectDto>,
    selectedProjectId: Option<string>,
    tasks: seq<TaskDto>,
    loadingProjects: bool,
    creatingProject: bool,
    loadingTasks: bool,
    creatingTask: bool,
    error: Option<string>)

  const InitialState: KanbanState := KanbanState([], None, [], false, false, false, false, None)

  datatype Action =
    | LoadProjects
    | LoadProjectsSuccess(projects: seq<ProjectDto>)
    | LoadProjectsFailure(error: string)
    | CreateProject(name: string, repoOwner: string, repoName: string, gitHubToken: string)
    | CreateProjectSuccess(project: ProjectDto)
    | CreateProjectFailure(error: string)
    | HydrateSelectedProject(hydratedProjectId: Option<string>)
    | SelectProject(projectId: string)
    | LoadTasks(projectId: string)
    | LoadTasksSuccess(tasks: seq<TaskDto>)
    | LoadTasksFailure(error: string)
    | CreateTask(title: string, description: Option<string>)
    | CreateTaskSuccess(task: TaskDto)
    | CreateTaskFailure(error: string)
    | MoveTaskOptimistic(taskId: string, newStatus: TaskStatus, previousStatus: TaskStatus, previousCompletedAt: Option<string>)
    | MoveTaskSuccess(task: TaskDto)
    | MoveTaskFailure(taskId: string, previousStatus: TaskStatus, previousCompletedAt: Option<string>, error: string)
    | TaskUpdatedFromRealtime(event: TaskUpdatedEvent)

  /** `tasks.map(task => task.id === taskId ? { ...task, status, completedAt } : task)` */
  function SetStatusOf(tasks: seq<TaskDto>, taskId: string, status: TaskStatus, completedAt: Option<string>): (r: seq<TaskDto>)
    ensures |r| == |tasks|
    ensures forall i :: 0 <= i < |r| ==>
      r[i] == if tasks[i].id == taskId then tasks[i].(status := status, completedAt := completedAt) else tasks[i]
  {
    seq(|tasks|, i requires 0 <= i < |tasks| =>
      if tasks[i].id == taskId then tasks[i].(status := status, completedAt := completedAt) else tasks[i])
  }

  /** `tasks.map(item => item.id === task.id ? task : item)` */
  function ReplaceTask(tasks: seq<TaskDto>, task: TaskDto): (r: seq<TaskDto>)
    ensures |r| == |tasks|
    ensures forall i :: 0 <= i < |r| ==> r[i] == if tasks[i].id == task.id then task else tasks[i]
  {
    seq(|tasks|, i requires 0 <= i < |tasks| => if tasks[i].id == task.id then task else tasks[i])
  }

  /** `kanbanReducer`; `now` is the ISO time an optimistic move to Done
      records. Each slice of the state has its own actions: only the two
      project-list actions change the projects, only selection changes the
      selected project, and the per-task actions keep every task in place. */
  function Reduce(s: KanbanState, a: Action, now: string): (r: KanbanState)
    ensures r.projects != s.projects ==> a.LoadProjectsSuccess? || a.CreateProjectSuccess?
    ensures r.selectedProjectId != s.selectedProjectId ==>
              a.CreateProjectSuccess? || a.HydrateSelectedProject? || a.SelectProject?
    ensures PerTask(a) ==> |r.tasks| == |s.tasks| && forall i :: 0 <= i < |s.tasks| ==> r.tasks[i].id == s.tasks[i].id
    ensures r.error.Some? && r.error != s.error ==>
              a.LoadProjectsFailure? || a.CreateProjectFailure? || a.LoadTasksFailure? || a.CreateTaskFailure? || a.MoveTaskFailure?
  {
    match a
    case CreateProject(_, _, _, _) => s.(creatingProject := true, error := None)
    case CreateProjectSuccess(project) =>
      s.(creatingProject := false, projects := s.projects + [project], selectedProjectId := Some(project.id), tasks := [])
    case CreateProjectFailure(error) => s.(creatingProject := false, error := Some(error))
    case LoadProjects => s.(loadingProjects := true, error := None)
    case LoadProjectsSuccess(projects) => s.(loadingProjects := false, projects := projects)
    case LoadProjectsFailure(error) => s.(loadingProjects := false, error := Some(error))
    case HydrateSelectedProject(projectId) => s.(selectedProjectId := projectId)
    case SelectProject(projectId) => s.(selectedProjectId := Some(projectId), tasks := [])
    case LoadTasks(_) => s.(loadingTasks := true, error := None)
    case LoadTasksSuccess(tasks) => s.(loadingTasks := false, tasks := tasks)
    case LoadTasksFailure(error) => s.(loadingTasks := false, error := Some(error))
    case CreateTask(_, _) => s.(creatingTask := true, error := None)
    case CreateTaskSuccess(task) => s.(creatingTask := false, tasks := s.tasks + [task])
    case CreateTaskFailure(error) => s.(creatingTask := false, error := Some(error))
    case MoveTaskOptimistic(taskId, newStatus, _, _) =>
      s.(tasks := SetStatusOf(s.tasks, taskId, newStatus, if newStatus == Tasks.Done then Some(now) else None))
    case MoveTaskSuccess(task) => s.(tasks := ReplaceTask(s.tasks, task))
    case MoveTaskFailure(taskId, previousStatus, previousCompletedAt, error) =>
      s.(error := Some(error), tasks := SetStatusOf(s.tasks, taskId, previousStatus, previousCompletedAt))
    case TaskUpdatedFromRealtime(event) =>
      s.(tasks := SetStatusOf(s.tasks, event.taskId, event.status, event.completedAt))
  }

  /** Several actions in order, as the store receives them. A run of actions
      none of which lists projects leaves the project list alone. */
  function ReduceAll(s: KanbanState, actions: seq<Action>, now: string): (r: KanbanState)
    ensures (forall k :: 0 <= k < |actions| ==> !actions[k].LoadProjectsSuccess? && !actions[k].CreateProjectSuccess?) ==>
              r.projects == s.projects
    decreases |actions|
  {
    if actions == [] then s
    else
      assert forall k :: 0 <= k < |actions| - 1 ==> actions[1..][k] == actions[k + 1];
      ReduceAll(Reduce(s, actions[0], now), actions[1..], now)
  }

  /** Reducing a list of actions is reducing its first part, then the rest. */
  lemma {:induction false} ReduceAllConcat(s: KanbanState, first: seq<Action>, rest: seq<Action>, now: string)
    ensures ReduceAll(s, first + rest, now) == ReduceAll(ReduceAll(s, first, now), rest, now)
    decreases |first|
  {
    if first == [] {
      assert first + rest == rest;
    } else {
      assert (first + rest)[0] == first[0] && (first + rest)[1..] == first[1..] + rest;
      ReduceAllConcat(Reduce(s, first[0], now), first[1..], rest, now);
    }
  }

  /** The actions that touch one task in place. */
  predicate PerTask(a: Action) {
    a.MoveTaskOptimistic? || a.MoveTaskSuccess? || a.MoveTaskFailure? || a.TaskUpdatedFromRealtime?
  }

  /** Two task lists hold the same tasks in the same places, with only their status and completion time free to differ. */
  predicate SameTasksInPlace(a: seq<TaskDto>, b: seq<TaskDto>) {
    |a| == |b| &&
    forall i :: 0 <= i < |a| ==>
      a[i].(status := b[i].status, completedAt := b[i].completedAt) == b[i]
  }

  // ---------------------------------------------------------------- lemmas

  /** An optimistic move changes only the tasks with the moved id: they take
      the new status, and a completion time exactly when that status is Done. */
  lemma OptimisticMoveOnlyMovesTarget(s: KanbanState, taskId: string, newStatus: TaskStatus, prev: TaskStatus, prevAt: Option<string>, now: string)
    ensures var r := Reduce(s, MoveTaskOptimistic(taskId, newStatus, prev, prevAt), now);
      && r.(tasks := s.tasks) == s
      && SameTasksInPlace(s.tasks, r.tasks)
      && forall i :: 0 <= i < |r.tasks| ==>
           if s.tasks[i].id == taskId then
             r.tasks[i].status == newStatus && (r.tasks[i].completedAt.Some? <==> newStatus == Tasks.Done)
           else r.tasks[i] == s.tasks[i]
  {
  }

  /** A failed move puts back the status and completion time that were
      captured, and reports the error. */
  lemma FailedMoveRestoresCapture(s: KanbanState, taskId: string, prev: TaskStatus, prevAt: Option<string>, error: string, now: string)
    ensures var r := Reduce(s, MoveTaskFailure(taskId, prev, prevAt, error), now);
      && r.(tasks := s.tasks, error := s.error) == s
      && r.error == Some(error)
      && SameTasksInPlace(s.tasks, r.tasks)
      && forall i :: 0 <= i < |r.tasks| ==>
           if s.tasks[i].id == taskId then r.tasks[i].status == prev && r.tasks[i].completedAt == prevAt
           else r.tasks[i] == s.tasks[i]
  {
  }

  /** Every task with the id has the captured status and completion time. */
  predicate CapturedFrom(tasks: seq<TaskDto>, taskId: string, prev: TaskStatus, prevAt: Option<string>) {
    forall i :: 0 <= i < |tasks| && tasks[i].id == taskId ==> tasks[i].status == prev && tasks[i].completedAt == prevAt
  }

  /** An optimistic move followed by its failure, with the status and
      completion time captured before the move, gives back the original task
      list; only the error is new. */
  lemma MoveThenFailureRollsBack(s: KanbanState, taskId: string, newStatus: TaskStatus, prev: TaskStatus, prevAt: Option<string>, error: string, now: string)
    requires CapturedFrom(s.tasks, taskId, prev, prevAt)
    ensures ReduceAll(s, [MoveTaskOptimistic(taskId, newStatus, prev, prevAt), MoveTaskFailure(taskId, prev, prevAt, error)], now)
            == s.(error := Some(error))
  {
    var moved := Reduce(s, MoveTaskOptimistic(taskId, newStatus, prev, prevAt), now);
    var back := Reduce(moved, MoveTaskFailure(taskId, prev, prevAt, error), now);
    assert [MoveTaskOptimistic(taskId, newStatus, prev, prevAt), MoveTaskFailure(taskId, prev, prevAt, error)][1..]
        == [MoveTaskFailure(taskId, prev, prevAt, error)];
    assert ReduceAll(moved, [MoveTaskFailure(taskId, prev, prevAt, error)], now) == back by {
      assert [MoveTaskFailure(taskId, prev, prevAt, error)][1..] == [];
    }
    forall i | 0 <= i < |s.tasks|
      ensures back.tasks[i] == s.tasks[i]
    {
    }
    assert back.tasks == s.tasks;
  }

  /** A confirmed move replaces the matching task by the server's copy and leaves the others alone. */
  lemma MoveSuccessReplaces(s: KanbanState, task: TaskDto, now: string)
    ensures var r := Reduce(s, MoveTaskSuccess(task), now);
      && r.(tasks := s.tasks) == s
      && |r.tasks| == |s.tasks|
      && forall i :: 0 <= i < |r.tasks| ==>
           r.tasks[i].id == s.tasks[i].id && (r.tasks[i] == task || r.tasks[i] == s.tasks[i])
           && (s.tasks[i].id == task.id ==> r.tasks[i] == task)
  {
  }

  /** A realtime update overwrites only the status and completion time of the matching task. */
  lemma RealtimeUpdateOverwritesStatus(s: KanbanState, event: TaskUpdatedEvent, now: string)
    ensures var r := Reduce(s, TaskUpdatedFromRealtime(event), now);
      && r.(tasks := s.tasks) == s
      && SameTasksInPlace(s.tasks, r.tasks)
      && forall i :: 0 <= i < |r.tasks| ==>
           if s.tasks[i].id == event.taskId then r.tasks[i].status == event.status && r.tasks[i].completedAt == event.completedAt
           else r.tasks[i] == s.tasks[i]
  {
  }

  /** Any run of per-task actions keeps the list's length and the id at every position. */
  lemma {:induction false} PerTaskActionsKeepOrder(s: KanbanState, actions: seq<Action>, now: string)
    requires forall k :: 0 <= k < |actions| ==> PerTask(actions[k])
    ensures |ReduceAll(s, actions, now).tasks| == |s.tasks|
    ensures forall i :: 0 <= i < |s.tasks| ==> ReduceAll(s, actions, now).tasks[i].id == s.tasks[i].id
    decreases |actions|
  {
    if actions != [] {
      var next := Reduce(s, actions[0], now);
      assert PerTask(actions[0]);
      assert forall k :: 0 <= k < |actions| - 1 ==> actions[1..][k] == actions[k + 1];
      PerTaskActionsKeepOrder(next, actions[1..], now);
    }
  }

  /** Creating a task appends it; selecting a project empties the board;
      a created project is appended and selected on an empty board. */
  lemma ListActions(s: KanbanState, task: TaskDto, project: ProjectDto, projectId: string, now: string)
    ensures Reduce(s, CreateTaskSuccess(task), now).tasks == s.tasks + [task]
    ensures var r := Reduce(s, SelectProject(projectId), now);
      r.selectedProjectId == Some(projectId) && r.tasks == [] && r.projects == s.projects
    ensures var r := Reduce(s, CreateProjectSuccess(project), now);
      r.projects == s.projects + [project] && r.selectedProjectId == Some(project.id) && r.tasks == []
  {
  }

  /** The flag a start action raises, and which the matching success or failure lowers. */
  function BusyFlag(s: KanbanState, a: Action): bool
    requires a.LoadProjects? || a.CreateProject? || a.LoadTasks? || a.CreateTask?
  {
    if a.LoadProjects? then s.loadingProjects
    else if a.CreateProject? then s.creatingProject
    else if a.LoadTasks? then s.loadingTasks
    else s.creatingTask
  }

  /** Each start action raises its flag and clears the error; its failure
      lowers that flag and records the error. */
  lemma StartAndFailureFlags(s: KanbanState, start: Action, error: string, now: string)
    requires start.LoadProjects? || start.CreateProject? || start.LoadTasks? || start.CreateTask?
    ensures var r := Reduce(s, start, now); BusyFlag(r, start) && r.error.None?
    ensures var failure :=
              if start.LoadProjects? then LoadProjectsFailure(error)
              else if start.CreateProject? then CreateProjectFailure(error)
              else if start.LoadTasks? then LoadTasksFailure(error)
              else CreateTaskFailure(error);
            var r := Reduce(Reduce(s, start, now), failure, now);
            !BusyFlag(r, start) && r.error == Some(error)
  {
  }
}
