/** The board's selectors: the three status columns and the loading flag. */
module KanbanSelectors {
  import Tasks
  import opened KanbanModels
  import opened KanbanStore

  /** `tasks.filter(task => task.status === status)` */
  function TasksWithStatus(tasks: seq<TaskDto>, status: TaskStatus): (r: seq<TaskDto>)
    ensures |r| <= |tasks|
    ensures forall t :: t in r <==> t in tasks && t.status == status
  {
    if tasks == [] then []
    else (if tasks[0].status == status then [tasks[0]] else []) + TasksWithStatus(tasks[1..], status)
  }

  /** `selectTodoTasks`, `selectInProgressTasks` and `selectDoneTasks`: each
      column holds exactly the board's tasks of its status. */
  function TodoTasks(s: KanbanState): (r: seq<TaskDto>)
    ensures forall t :: t in r <==> t in s.tasks && t.status == Tasks.Todo
  {
    TasksWithStatus(s.tasks, Tasks.Todo)
  }

  function InProgressTasks(s: KanbanState): (r: seq<TaskDto>)
    ensures forall t :: t in r <==> t in s.tasks && t.status == Tasks.InProgress
  {
    TasksWithStatus(s.tasks, Tasks.InProgress)
  }

  function DoneTasks(s: KanbanState): (r: seq<TaskDto>)
    ensures forall t :: t in r <==> t in s.tasks && t.status == Tasks.Done
  {
    TasksWithStatus(s.tasks, Tasks.Done)
  }

  /** `selectKanbanLoading` */
  predicate Loading(s: KanbanState) {
    s.loadingProjects || s.creatingProject || s.loadingTasks || s.creatingTask
  }

  /** The three columns split the task list: every task is counted in exactly
      one of them, as often as it occurs. */
  lemma {:induction false} ColumnsPartitionTasks(tasks: seq<TaskDto>)
    ensures multiset(tasks)
         == multiset(TasksWithStatus(tasks, Tasks.Todo))
          + multiset(TasksWithStatus(tasks, Tasks.InProgress))
          + multiset(TasksWithStatus(tasks, Tasks.Done))
  {
    if tasks != [] {
      var rest := tasks[1..];
      ColumnsPartitionTasks(rest);
      assert tasks == [tasks[0]] + rest;
      assert multiset(tasks) == multiset{tasks[0]} + multiset(rest);
      var todo, doing, done := TasksWithStatus(rest, Tasks.Todo), TasksWithStatus(rest, Tasks.InProgress), TasksWithStatus(rest, Tasks.Done);
      match tasks[0].status
      case Todo =>
        assert TasksWithStatus(tasks, Tasks.Todo) == [tasks[0]] + todo;
        assert TasksWithStatus(tasks, Tasks.InProgress) == doing;
        assert TasksWithStatus(tasks, Tasks.Done) == done;
      case InProgress =>
        assert TasksWithStatus(tasks, Tasks.Todo) == todo;
        assert TasksWithStatus(tasks, Tasks.InProgress) == [tasks[0]] + doing;
        assert TasksWithStatus(tasks, Tasks.Done) == done;
      case Done =>
        assert TasksWithStatus(tasks, Tasks.Todo) == todo;
        assert TasksWithStatus(tasks, Tasks.InProgress) == doing;
        assert TasksWithStatus(tasks, Tasks.Done) == [tasks[0]] + done;
    }
  }

  /** The columns' sizes add up to the number of tasks. */
  lemma ColumnSizesAddUp(s: KanbanState)
    ensures |TodoTasks(s)| + |InProgressTasks(s)| + |DoneTasks(s)| == |s.tasks|
  {
    ColumnsPartitionTasks(s.tasks);
    assert |multiset(s.tasks)| == |s.tasks|;
  }

  /** `a` is `b` with some elements left out, the rest in their order. */
  predicate IsSubsequence(a: seq<TaskDto>, b: seq<TaskDto>)
    decreases |b|
  {
    a == [] || (b != [] && ((a[0] == b[0] && IsSubsequence(a[1..], b[1..])) || IsSubsequence(a, b[1..])))
  }

  /** A column keeps the tasks in their order on the board. */
  lemma {:induction false} ColumnKeepsOrder(tasks: seq<TaskDto>, status: TaskStatus)
    ensures IsSubsequence(TasksWithStatus(tasks, status), tasks)
  {
    if tasks != [] {
      ColumnKeepsOrder(tasks[1..], status);
      var r := TasksWithStatus(tasks, status);
      if tasks[0].status == status {
        assert r[0] == tasks[0] && r[1..] == TasksWithStatus(tasks[1..], status);
      } else {
        assert r == TasksWithStatus(tasks[1..], status);
      }
    }
  }

  /** Filtering a concatenation filters each part. */
  lemma {:induction false} ColumnOfConcatenation(a: seq<TaskDto>, b: seq<TaskDto>, status: TaskStatus)
    ensures TasksWithStatus(a + b, status) == TasksWithStatus(a, status) + TasksWithStatus(b, status)
  {
    if a != [] {
      ColumnOfConcatenation(a[1..], b, status);
      assert (a + b)[0] == a[0] && (a + b)[1..] == a[1..] + b;
      var head := if a[0].status == status then [a[0]] else [];
      assert TasksWithStatus(a + b, status) == head + TasksWithStatus(a[1..] + b, status);
      assert TasksWithStatus(a, status) == head + TasksWithStatus(a[1..], status);
    } else {
      assert a + b == b;
    }
  }

  /** A created task shows at the bottom of its own column and nowhere else. */
  lemma CreatedTaskJoinsItsColumn(s: KanbanState, task: TaskDto, status: TaskStatus, now: string)
    ensures TasksWithStatus(Reduce(s, CreateTaskSuccess(task), now).tasks, status)
         == TasksWithStatus(s.tasks, status) + (if task.status == status then [task] else [])
  {
    ColumnOfConcatenation(s.tasks, [task], status);
    assert TasksWithStatus([task], status) == (if task.status == status then [task] else []) by {
      assert [task][1..] == [];
    }
  }

  /** The board shows as loading while any start action has not finished, and
      not before anything has started. */
  lemma LoadingWhileStarted(s: KanbanState, start: Action, now: string)
    requires start.LoadProjects? || start.CreateProject? || start.LoadTasks? || start.CreateTask?
    ensures Loading(Reduce(s, start, now))
    ensures !Loading(InitialState)
  {
  }
}
