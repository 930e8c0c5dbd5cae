/** `TaskService`: creating tasks together with their GitHub issue, listing
    and reading tasks, moving a task with the matching remote close or
    reopen, and reading the issue behind a task. */
module TaskServices {
  import opened Common
  import opened Text
  import opened Tables
  import opened Tasks
  import opened Projects
  import opened Persistence
  import opened IssueTracker

  /** What the API returns for a task. */
  datatype TaskDto = TaskDto(
    id: Guid,
    projectId: Guid,
    title: string,
    status: string,
    gitHubIssueNumber: Option<int>,
    createdAt: Instant,
    completedAt: Option<Instant>)

  /** `Enum.TryParse<TaskStatus>(value, ignoreCase: true)` on the status names:
      surrounding white space is ignored and letter case does not matter. */
  function ParseStatus(value: string): (r: Option<Status>)
    ensures forall s :: r == Some(s) <==> EqualsIgnoreCase(Trim(value), StatusName(s))
  {
    StatusNamesDistinct();
    var t := Trim(value);
    if EqualsIgnoreCase(t, "Todo") then Some(Todo)
    else if EqualsIgnoreCase(t, "InProgress") then Some(InProgress)
    else if EqualsIgnoreCase(t, "Done") then Some(Done)
    else None
  }

  /** No two status names are equal, even ignoring letter case. */
  lemma StatusNamesDistinct()
    ensures forall s1, s2 :: s1 != s2 ==> ToLower(StatusName(s1)) != ToLower(StatusName(s2))
  {
    forall s1, s2 | s1 != s2
      ensures ToLower(StatusName(s1)) != ToLower(StatusName(s2))
    {
      assert ToLower(StatusName(s1))[0] != ToLower(StatusName(s2))[0];
    }
  }

  /** The status a task is reported with parses back to that status. */
  lemma ParseStatusName(s: Status)
    ensures ParseStatus(StatusName(s)) == Some(s)
  {
    var name := StatusName(s);
    assert IsTrimmed(name);
    TrimOfTrimmed(name);
  }

  /** `Map(task)`: the task's fields as they are, the status by its name. */
  function Map(t: TaskRow): (r: TaskDto)
    ensures r.id == t.id && r.projectId == t.projectId && r.title == t.title
    ensures r.gitHubIssueNumber == t.gitHubIssueNumber && r.createdAt == t.createdAt && r.completedAt == t.completedAt
    ensures forall s :: r.status == StatusName(s) <==> s == t.status
  {
    TaskDto(t.id, t.projectId, t.title, StatusName(t.status), t.gitHubIssueNumber, t.createdAt, t.completedAt)
  }

  /** The reported status parses back to the task's status. */
  lemma MapStatusRoundTrip(t: TaskRow)
    ensures ParseStatus(Map(t).status) == Some(t.status)
  {
    ParseStatusName(t.status);
  }

  /** Nothing is lost by mapping a task: distinct tasks give distinct results. */
  lemma MapInjective(a: TaskRow, b: TaskRow)
    requires Map(a) == Map(b)
    ensures a == b
  {
    MapStatusRoundTrip(a);
    MapStatusRoundTrip(b);
  }

  function MapAll(ts: seq<TaskRow>): (r: seq<TaskDto>)
    ensures |r| == |ts| && forall i :: 0 <= i < |ts| ==> r[i] == Map(ts[i])
  {
    seq(|ts|, i requires 0 <= i < |ts| => Map(ts[i]))
  }

  /** `Where(task => task.ProjectId == projectId)`, in table order. */
  function ProjectTasks(tasks: seq<TaskRow>, projectId: Guid): (r: seq<TaskRow>)
    ensures forall t :: t in r <==> t in tasks && t.projectId == projectId
    ensures |r| <= |tasks|
  {
    if tasks == [] then []
    else if tasks[0].projectId == projectId then [tasks[0]] + ProjectTasks(tasks[1..], projectId)
    else ProjectTasks(tasks[1..], projectId)
  }

  predicate SortedByCreatedAt(ts: seq<TaskRow>) {
    forall i, j :: 0 <= i < j < |ts| ==> ts[i].createdAt <= ts[j].createdAt
  }

  function InsertByCreatedAt(t: TaskRow, sorted: seq<TaskRow>): (r: seq<TaskRow>)
    requires SortedByCreatedAt(sorted)
    ensures SortedByCreatedAt(r)
    ensures multiset(r) == multiset(sorted) + multiset{t}
    ensures |r| == |sorted| + 1 && (r[0] == t || (sorted != [] && r[0] == sorted[0]))
    decreases |sorted|
  {
    if sorted == [] || t.createdAt <= sorted[0].createdAt then
      [t] + sorted
    else
      var rest := InsertByCreatedAt(t, sorted[1..]);
      assert sorted == [sorted[0]] + sorted[1..];
      [sorted[0]] + rest
  }

  /** `OrderBy(task => task.CreatedAt)`: sorted by creation time, and a
      permutation of its input. */
  function SortByCreatedAt(ts: seq<TaskRow>): (r: seq<TaskRow>)
    ensures SortedByCreatedAt(r)
    ensures multiset(r) == multiset(ts)
  {
    if ts == [] then []
    else
      assert ts == [ts[0]] + ts[1..];
      InsertByCreatedAt(ts[0], SortByCreatedAt(ts[1..]))
  }

  /** Moves that must first be mirrored on GitHub: closing the issue when a
      task becomes Done, reopening it when a Done task returns to InProgress. */
  predicate RequiresRemoteChange(current: Status, target: Status) {
    current != target && (target == Done || (current == Done && target == InProgress))
  }

  /** The local move that follows a remote close or reopen never fails, so the
      service never changes GitHub and then refuses the move itself. */
  lemma RemoteChangeIsLocallyAllowed(t: TaskRow, target: Status, now: Instant)
    requires RequiresRemoteChange(t.status, target)
    ensures Moved(t, target, None, now).Ok?
  {
  }

  /** A move the entity refuses never reaches GitHub. */
  lemma RefusedMoveStaysLocal(t: TaskRow, target: Status, now: Instant)
    requires Moved(t, target, None, now).Fail?
    ensures !RequiresRemoteChange(t.status, target) && target == Todo
  {
  }


  /** What `GetByProjectIdAsync` lists: the project's tasks, oldest first. */
  function ProjectListing(tasks: seq<TaskRow>, projectId: Guid): (r: seq<TaskDto>)
    ensures |r| == |ProjectTasks(tasks, projectId)|
    ensures forall i :: 0 <= i < |r| ==> r[i].projectId == projectId
    ensures forall i, j :: 0 <= i < j < |r| ==> r[i].createdAt <= r[j].createdAt
  {
    var sorted := SortByCreatedAt(ProjectTasks(tasks, projectId));
    assert forall i :: 0 <= i < |sorted| ==> sorted[i] in multiset(sorted);
    MapAll(sorted)
  }

  /** Every task of the project is listed. */
  lemma ListingComplete(tasks: seq<TaskRow>, projectId: Guid, t: TaskRow)
    requires t in tasks && t.projectId == projectId
    ensures Map(t) in ProjectListing(tasks, projectId)
  {
    var sorted := SortByCreatedAt(ProjectTasks(tasks, projectId));
    assert t in multiset(sorted);
    var k :| 0 <= k < |sorted| && sorted[k] == t;
    assert ProjectListing(tasks, projectId)[k] == Map(t);
  }

  /** What a service call does: its outcome, the Tasks table afterwards and the
      requests it sent to GitHub, in order. */
  datatype Effect<T> = Effect(result: Result<T>, tasks: seq<TaskRow>, calls: seq<RemoteCall>)

  predicate AllWellFormed(tasks: seq<TaskRow>) {
    forall t :: t in tasks ==> Tasks.WellFormed(t)
  }

  /** The task `CreateAsync` stores: a new task numbered with the created issue. */
  function NewNumberedTask(newId: Guid, projectId: Guid, title: string, now: Instant, number: int): Result<TaskRow> {
    var task :- NewTask(newId, projectId, title, None, now);
    IssueNumberSet(task, number)
  }

  /** `CreateAsync`: `created` is GitHub's answer to the create request and
      `calls` the requests made before this one. */
  function CreatePlan(projects: seq<ProjectRow>, tasks: seq<TaskRow>, calls: seq<RemoteCall>,
                      unprotect: string -> Result<string>, created: Result<int>, projectId: Guid, title: string,
                      description: Option<string>, newId: Guid, now: Instant, saveFault: Option<Error>): (e: Effect<TaskDto>)
    requires NoDuplicates(Keys(tasks, TaskId))
    ensures NoDuplicates(Keys(e.tasks, TaskId))
    ensures e.result.Fail? ==> e.tasks == tasks
    ensures |calls| <= |e.calls| <= |calls| + 2 && e.calls[..|calls|] == calls
  {
    match FindProject(projects, projectId)
    case None => Effect(Fail(InvalidOperation("Project not found.")), tasks, calls)
    case Some(p) =>
      match unprotect(p.gitHubTokenEncrypted)
      case Fail(err) => Effect(Fail(err), tasks, calls)
      case Ok(token) =>
        var create := CreateIssue(p.repoOwner, p.repoName, title, description, token);
        match created
        case Fail(err) => Effect(Fail(err), tasks, calls + [create])
        case Ok(number) =>
          match NewNumberedTask(newId, projectId, title, now, number)
          case Fail(err) => Effect(Fail(err), tasks, calls + [create])
          case Ok(row) => SavePlan(tasks, calls + [create], p, token, number, row, saveFault)
  }

  /** The save at the end of `CreateAsync`: the new task is stored, or, when
      the save fails, the issue just created is closed again and the save's
      error is raised. */
  function SavePlan(tasks: seq<TaskRow>, calls: seq<RemoteCall>, p: ProjectRow, token: string, number: int,
                    row: TaskRow, saveFault: Option<Error>): (e: Effect<TaskDto>)
    requires NoDuplicates(Keys(tasks, TaskId))
    ensures NoDuplicates(Keys(e.tasks, TaskId))
    ensures e.result.Fail? ==> e.tasks == tasks && e.calls == calls + [CloseIssue(p.repoOwner, p.repoName, number, token)]
    ensures e.result.Ok? ==> e.tasks == tasks + [row] && e.calls == calls && e.result.value == Map(row)
  {
    match SaveFault(saveFault, row.id in Keys(tasks, TaskId))
    case Some(err) => Effect(Fail(err), tasks, calls + [CloseIssue(p.repoOwner, p.repoName, number, token)])
    case None =>
      AppendFresh(tasks, TaskId, row);
      Effect(Ok(Map(row)), tasks + [row], calls)
  }

  /** An unknown project is refused before anything reaches GitHub. */
  lemma CreateUnknownProject(projects: seq<ProjectRow>, tasks: seq<TaskRow>, calls: seq<RemoteCall>,
                             unprotect: string -> Result<string>, created: Result<int>, projectId: Guid,
                             title: string, description: Option<string>, newId: Guid, now: Instant,
                             saveFault: Option<Error>)
    requires NoDuplicates(Keys(tasks, TaskId)) && FindProject(projects, projectId).None?
    ensures CreatePlan(projects, tasks, calls, unprotect, created, projectId, title, description, newId, now, saveFault)
            == Effect(Fail(InvalidOperation("Project not found.")), tasks, calls)
  {
  }

  /** A successful create made exactly one request, the issue creation in the
      project's repository, and stored exactly one new, well-formed task
      carrying the issue's number, as the result reports it. */
  lemma CreateStoresTask(projects: seq<ProjectRow>, tasks: seq<TaskRow>, calls: seq<RemoteCall>,
                         unprotect: string -> Result<string>, created: Result<int>, projectId: Guid,
                         title: string, description: Option<string>, newId: Guid, now: Instant,
                         saveFault: Option<Error>)
    requires NoDuplicates(Keys(tasks, TaskId))
    requires CreatePlan(projects, tasks, calls, unprotect, created, projectId, title, description, newId, now, saveFault).result.Ok?
    ensures
      var e := CreatePlan(projects, tasks, calls, unprotect, created, projectId, title, description, newId, now, saveFault);
      var p := FindProject(projects, projectId).value;
      var row := e.tasks[|tasks|];
      && unprotect(p.gitHubTokenEncrypted).Ok?
      && e.calls == calls + [CreateIssue(p.repoOwner, p.repoName, title, description, unprotect(p.gitHubTokenEncrypted).value)]
      && e.tasks == tasks + [row]
      && Tasks.WellFormed(row) && row.id == newId && row.projectId == projectId
      && row.title == Trim(title) && row.status == Todo && row.completedAt == None
      && row.gitHubIssueNumber == Some(created.value) && created.value > 0
      && e.result.value == Map(row)
  {
  }

  /** When the save fails after the issue was created, the issue is closed
      again, with the same repository and token, and the save's error is the
      outcome; no task is stored. */
  lemma CreateCompensates(projects: seq<ProjectRow>, tasks: seq<TaskRow>, calls: seq<RemoteCall>,
                          unprotect: string -> Result<string>, created: Result<int>, projectId: Guid,
                          title: string, description: Option<string>, newId: Guid, now: Instant,
                          saveFault: Option<Error>)
    requires NoDuplicates(Keys(tasks, TaskId))
    requires FindProject(projects, projectId).Some?
    requires unprotect(FindProject(projects, projectId).value.gitHubTokenEncrypted).Ok?
    requires created.Ok? && NewNumberedTask(newId, projectId, title, now, created.value).Ok?
    requires SaveFault(saveFault, newId in Keys(tasks, TaskId)).Some?
    ensures
      var e := CreatePlan(projects, tasks, calls, unprotect, created, projectId, title, description, newId, now, saveFault);
      var p := FindProject(projects, projectId).value;
      var token := unprotect(p.gitHubTokenEncrypted).value;
      && e.calls == calls + [CreateIssue(p.repoOwner, p.repoName, title, description, token),
                             CloseIssue(p.repoOwner, p.repoName, created.value, token)]
      && e.result == Fail(SaveFault(saveFault, newId in Keys(tasks, TaskId)).value)
      && e.tasks == tasks
  {
    var p := FindProject(projects, projectId).value;
    var token := unprotect(p.gitHubTokenEncrypted).value;
    var create := CreateIssue(p.repoOwner, p.repoName, title, description, token);
    var close := CloseIssue(p.repoOwner, p.repoName, created.value, token);
    var row := NewNumberedTask(newId, projectId, title, now, created.value).value;
    CreateReachesSave(projects, tasks, calls, unprotect, created, projectId, title, description, newId, now, saveFault);
    SaveFailureCloses(tasks, calls + [create], p, token, created.value, row, saveFault);
    AppendTwo(calls, create, close);
  }

  /** Appending two elements one at a time appends them as a pair. */
  lemma AppendTwo<T>(s: seq<T>, a: T, b: T)
    ensures s + [a] + [b] == s + [a, b]
  {
  }

  /** Once the project, its token, the issue and the task are there, what
      remains is the save. */
  lemma CreateReachesSave(projects: seq<ProjectRow>, tasks: seq<TaskRow>, calls: seq<RemoteCall>,
                          unprotect: string -> Result<string>, created: Result<int>, projectId: Guid,
                          title: string, description: Option<string>, newId: Guid, now: Instant,
                          saveFault: Option<Error>)
    requires NoDuplicates(Keys(tasks, TaskId))
    requires FindProject(projects, projectId).Some?
    requires unprotect(FindProject(projects, projectId).value.gitHubTokenEncrypted).Ok?
    requires created.Ok? && NewNumberedTask(newId, projectId, title, now, created.value).Ok?
    ensures
      var p := FindProject(projects, projectId).value;
      var token := unprotect(p.gitHubTokenEncrypted).value;
      CreatePlan(projects, tasks, calls, unprotect, created, projectId, title, description, newId, now, saveFault)
        == SavePlan(tasks, calls + [CreateIssue(p.repoOwner, p.repoName, title, description, token)], p, token,
                    created.value, NewNumberedTask(newId, projectId, title, now, created.value).value, saveFault)
  {
  }

  /** A failed save raises the save's error after the close request. */
  lemma SaveFailureCloses(tasks: seq<TaskRow>, calls: seq<RemoteCall>, p: ProjectRow, token: string, number: int,
                          row: TaskRow, saveFault: Option<Error>)
    requires NoDuplicates(Keys(tasks, TaskId))
    requires SaveFault(saveFault, row.id in Keys(tasks, TaskId)).Some?
    ensures SavePlan(tasks, calls, p, token, number, row, saveFault)
            == Effect(Fail(SaveFault(saveFault, row.id in Keys(tasks, TaskId)).value), tasks,
                      calls + [CloseIssue(p.repoOwner, p.repoName, number, token)])
  {
  }

  /** The issue is created before the task is validated: when the task cannot
      be built (a bad title, or a non-positive issue number) the create request
      has gone out, nothing closes the issue again, and no task is stored. */
  lemma CreateLeavesIssueOpen(projects: seq<ProjectRow>, tasks: seq<TaskRow>, calls: seq<RemoteCall>,
                              unprotect: string -> Result<string>, created: Result<int>, projectId: Guid,
                              title: string, description: Option<string>, newId: Guid, now: Instant,
                              saveFault: Option<Error>)
    requires NoDuplicates(Keys(tasks, TaskId))
    requires FindProject(projects, projectId).Some?
    requires unprotect(FindProject(projects, projectId).value.gitHubTokenEncrypted).Ok?
    requires created.Ok? && NewNumberedTask(newId, projectId, title, now, created.value).Fail?
    ensures
      var e := CreatePlan(projects, tasks, calls, unprotect, created, projectId, title, description, newId, now, saveFault);
      && |e.calls| == |calls| + 1 && e.calls[|calls|].CreateIssue?
      && e.result.Fail? && e.tasks == tasks
  {
  }

  /** The remote half of `UpdateStatusAsync`: a close or reopen request when
      the move requires one, after the project, the issue number and the
      token have been found; `closed` and `reopened` are GitHub's answers and
      `calls` the requests made before. */
  function RemotePlan(projects: seq<ProjectRow>, calls: seq<RemoteCall>, unprotect: string -> Result<string>,
                      closed: Result<()>, reopened: Result<()>, t: TaskRow, target: Status)
    : (out: (Result<()>, seq<RemoteCall>))
    ensures |calls| <= |out.1| <= |calls| + 1 && out.1[..|calls|] == calls
    ensures !RequiresRemoteChange(t.status, target) ==> out == (Ok(()), calls)
    ensures RequiresRemoteChange(t.status, target) && FindProject(projects, t.projectId).None? ==>
      out == (Fail(InvalidOperation("Project not found for task.")), calls)
    ensures RequiresRemoteChange(t.status, target) && FindProject(projects, t.projectId).Some? && t.gitHubIssueNumber.None? ==>
      out == (Fail(InvalidOperation("Task does not have an associated GitHub issue.")), calls)
    ensures |out.1| > |calls| ==>
      && RequiresRemoteChange(t.status, target) && t.gitHubIssueNumber.Some?
      && FindProject(projects, t.projectId).Some?
      && unprotect(FindProject(projects, t.projectId).value.gitHubTokenEncrypted).Ok?
      && var p := FindProject(projects, t.projectId).value;
      var token := unprotect(p.gitHubTokenEncrypted).value;
      && out.1 == calls + [if target == Done then CloseIssue(p.repoOwner, p.repoName, t.gitHubIssueNumber.value, token)
                           else ReopenIssue(p.repoOwner, p.repoName, t.gitHubIssueNumber.value, token)]
      && out.0 == (if target == Done then closed else reopened)
  {
    if !RequiresRemoteChange(t.status, target) then (Ok(()), calls)
    else
      match FindProject(projects, t.projectId)
      case None => (Fail(InvalidOperation("Project not found for task.")), calls)
      case Some(p) =>
        match t.gitHubIssueNumber
        case None => (Fail(InvalidOperation("Task does not have an associated GitHub issue.")), calls)
        case Some(number) =>
          match unprotect(p.gitHubTokenEncrypted)
          case Fail(err) => (Fail(err), calls)
          case Ok(token) =>
            if target == Done then (closed, calls + [CloseIssue(p.repoOwner, p.repoName, number, token)])
            else (reopened, calls + [ReopenIssue(p.repoOwner, p.repoName, number, token)])
  }

  /** The part of `UpdateStatusAsync` before the save: the task, the parsed
      status, the remote change and the local move. `Ok(Some((i, moved)))`
      is the row to write at position `i` of the table. */
  function MovePlan(projects: seq<ProjectRow>, tasks: seq<TaskRow>, calls: seq<RemoteCall>,
                    unprotect: string -> Result<string>, closed: Result<()>, reopened: Result<()>,
                    taskId: Guid, status: string, now: Instant)
    : (out: (Result<Option<(nat, TaskRow)>>, seq<RemoteCall>))
    ensures out.0.Ok? && out.0.value.Some? ==>
      var (i, moved) := out.0.value.value;
      i < |tasks| && moved.id == tasks[i].id && (Tasks.WellFormed(tasks[i]) ==> Tasks.WellFormed(moved))
  {
    match IndexOf(Keys(tasks, TaskId), taskId)
    case None => (Ok(None), calls)
    case Some(i) =>
      var t := tasks[i];
      match ParseStatus(status)
      case None => (Fail(InvalidOperation("Invalid status value.")), calls)
      case Some(target) =>
        var remote := RemotePlan(projects, calls, unprotect, closed, reopened, t, target);
        if remote.0.Fail? then (Fail(remote.0.error), remote.1)
        else
          match Moved(t, target, None, now)
          case Fail(err) => (Fail(err), remote.1)
          case Ok(moved) => (Ok(Some((i, moved))), remote.1)
  }

  /** `UpdateStatusAsync`: an unknown task gives no result; GitHub is changed
      first, then the task is moved and saved, and a failed save leaves the
      remote change in place. */
  function UpdateStatusPlan(projects: seq<ProjectRow>, tasks: seq<TaskRow>, calls: seq<RemoteCall>,
                            unprotect: string -> Result<string>, closed: Result<()>, reopened: Result<()>,
                            taskId: Guid, status: string, now: Instant, saveFault: Option<Error>)
    : (e: Effect<Option<TaskDto>>)
    requires NoDuplicates(Keys(tasks, TaskId))
    ensures NoDuplicates(Keys(e.tasks, TaskId))
    ensures AllWellFormed(tasks) ==> AllWellFormed(e.tasks)
    ensures !(e.result.Ok? && e.result.value.Some?) ==> e.tasks == tasks
  {
    var (step, sent) := MovePlan(projects, tasks, calls, unprotect, closed, reopened, taskId, status, now);
    match step
    case Fail(err) => Effect(Fail(err), tasks, sent)
    case Ok(None) => Effect(Ok(None), tasks, sent)
    case Ok(Some((i, moved))) =>
      if saveFault.Some? then Effect(Fail(saveFault.value), tasks, sent)
      else
        ReplaceKeepingKey(tasks, TaskId, i, moved);
        assert tasks[i] in tasks;
        Effect(Ok(Some(Map(moved))), tasks[i := moved], sent)
  }

  /** An unknown task is not an error: nothing is sent and nothing changes. */
  lemma UpdateUnknownTask(projects: seq<ProjectRow>, tasks: seq<TaskRow>, calls: seq<RemoteCall>,
                          unprotect: string -> Result<string>, closed: Result<()>, reopened: Result<()>,
                          taskId: Guid, status: string, now: Instant, saveFault: Option<Error>)
    requires NoDuplicates(Keys(tasks, TaskId)) && taskId !in Keys(tasks, TaskId)
    ensures UpdateStatusPlan(projects, tasks, calls, unprotect, closed, reopened, taskId, status, now, saveFault)
            == Effect(Ok(None), tasks, calls)
  {
  }

  /** A status that does not parse is refused before anything is sent. */
  lemma UpdateInvalidStatus(projects: seq<ProjectRow>, tasks: seq<TaskRow>, calls: seq<RemoteCall>,
                            unprotect: string -> Result<string>, closed: Result<()>, reopened: Result<()>,
                            taskId: Guid, status: string, now: Instant, saveFault: Option<Error>)
    requires NoDuplicates(Keys(tasks, TaskId)) && taskId in Keys(tasks, TaskId) && ParseStatus(status).None?
    ensures UpdateStatusPlan(projects, tasks, calls, unprotect, closed, reopened, taskId, status, now, saveFault)
            == Effect(Fail(InvalidOperation("Invalid status value.")), tasks, calls)
  {
  }

  /** A move the task refuses (a Done task sent back to Todo) is refused with
      the task's own error, and GitHub is not asked to change anything. */
  lemma UpdateRefusedMove(projects: seq<ProjectRow>, tasks: seq<TaskRow>, calls: seq<RemoteCall>,
                          unprotect: string -> Result<string>, closed: Result<()>, reopened: Result<()>,
                          taskId: Guid, status: string, now: Instant, saveFault: Option<Error>)
    requires NoDuplicates(Keys(tasks, TaskId)) && taskId in Keys(tasks, TaskId) && ParseStatus(status).Some?
    requires Moved(tasks[IndexOf(Keys(tasks, TaskId), taskId).value], ParseStatus(status).value, None, now).Fail?
    ensures
      var moved := Moved(tasks[IndexOf(Keys(tasks, TaskId), taskId).value], ParseStatus(status).value, None, now);
      UpdateStatusPlan(projects, tasks, calls, unprotect, closed, reopened, taskId, status, now, saveFault)
        == Effect(Fail(moved.error), tasks, calls)
  {
    var t := tasks[IndexOf(Keys(tasks, TaskId), taskId).value];
    RefusedMoveStaysLocal(t, ParseStatus(status).value, now);
  }

  /** A successful update wrote the moved task over the old row, and only it,
      and reports it; the save did not fail. */
  lemma UpdateWritesMovedTask(projects: seq<ProjectRow>, tasks: seq<TaskRow>, calls: seq<RemoteCall>,
                              unprotect: string -> Result<string>, closed: Result<()>, reopened: Result<()>,
                              taskId: Guid, status: string, now: Instant, saveFault: Option<Error>)
    requires NoDuplicates(Keys(tasks, TaskId))
    requires
      var e := UpdateStatusPlan(projects, tasks, calls, unprotect, closed, reopened, taskId, status, now, saveFault);
      e.result.Ok? && e.result.value.Some?
    ensures
      var e := UpdateStatusPlan(projects, tasks, calls, unprotect, closed, reopened, taskId, status, now, saveFault);
      && saveFault.None? && taskId in Keys(tasks, TaskId) && ParseStatus(status).Some?
      && var i := IndexOf(Keys(tasks, TaskId), taskId).value;
      var moved := Moved(tasks[i], ParseStatus(status).value, None, now);
      && moved.Ok? && moved.value.status == ParseStatus(status).value
      && e.tasks == tasks[i := moved.value] && e.result.value.value == Map(moved.value)
  {
  }

  /** A move that closes or reopens the issue sends exactly that request, with
      the project's repository and token, once everything it needs is found.
      GitHub's refusal is the outcome; otherwise the save decides it, and a
      failed save leaves the remote change in place. */
  lemma UpdateMirrorsOnGitHub(projects: seq<ProjectRow>, tasks: seq<TaskRow>, calls: seq<RemoteCall>,
                              unprotect: string -> Result<string>, closed: Result<()>, reopened: Result<()>,
                              taskId: Guid, status: string, now: Instant, saveFault: Option<Error>)
    requires NoDuplicates(Keys(tasks, TaskId)) && taskId in Keys(tasks, TaskId) && ParseStatus(status).Some?
    requires
      var t := tasks[IndexOf(Keys(tasks, TaskId), taskId).value];
      && RequiresRemoteChange(t.status, ParseStatus(status).value)
      && FindProject(projects, t.projectId).Some? && t.gitHubIssueNumber.Some?
      && unprotect(FindProject(projects, t.projectId).value.gitHubTokenEncrypted).Ok?
    ensures
      var e := UpdateStatusPlan(projects, tasks, calls, unprotect, closed, reopened, taskId, status, now, saveFault);
      var t := tasks[IndexOf(Keys(tasks, TaskId), taskId).value];
      var target := ParseStatus(status).value;
      var p := FindProject(projects, t.projectId).value;
      var token := unprotect(p.gitHubTokenEncrypted).value;
      var reply := if target == Done then closed else reopened;
      && e.calls == calls + [if target == Done then CloseIssue(p.repoOwner, p.repoName, t.gitHubIssueNumber.value, token)
                             else ReopenIssue(p.repoOwner, p.repoName, t.gitHubIssueNumber.value, token)]
      && (reply.Fail? ==> e.result == Fail(reply.error) && e.tasks == tasks)
      && (reply.Ok? && saveFault.Some? ==> e.result == Fail(saveFault.value) && e.tasks == tasks)
      && (reply.Ok? && saveFault.None? ==> e.result.Ok? && e.result.value.Some?)
  {
    var t := tasks[IndexOf(Keys(tasks, TaskId), taskId).value];
    RemoteChangeIsLocallyAllowed(t, ParseStatus(status).value, now);
  }

  /** The lookup shared by the issue reads: the task read together with its
      project (so a task whose project is missing is not found), its issue
      number, and the unprotected token. */
  function IssueLookup(projects: seq<ProjectRow>, tasks: seq<TaskRow>, unprotect: string -> Result<string>,
                       taskId: Guid): (r: Result<Option<(ProjectRow, int, string)>>)
    ensures taskId !in Keys(tasks, TaskId) ==> r == Ok(None)
    ensures taskId in Keys(tasks, TaskId) ==>
      var t := tasks[IndexOf(Keys(tasks, TaskId), taskId).value];
      var p := FindProject(projects, t.projectId);
      && (p.None? ==> r == Ok(None))
      && (p.Some? && t.gitHubIssueNumber.None? ==>
            r == Fail(InvalidOperation("Task does not have an associated GitHub issue.")))
      && (r.Ok? && r.value.Some? ==>
            p.Some? && t.gitHubIssueNumber.Some? && unprotect(p.value.gitHubTokenEncrypted).Ok? &&
            r.value.value == (p.value, t.gitHubIssueNumber.value, unprotect(p.value.gitHubTokenEncrypted).value))
  {
    match IndexOf(Keys(tasks, TaskId), taskId)
    case None => Ok(None)
    case Some(i) =>
      var t := tasks[i];
      match FindProject(projects, t.projectId)
      case None => Ok(None)
      case Some(p) =>
        match t.gitHubIssueNumber
        case None => Fail(InvalidOperation("Task does not have an associated GitHub issue."))
        case Some(number) =>
          var token :- unprotect(p.gitHubTokenEncrypted);
          Ok(Some((p, number, token)))
  }

  class TaskService {
    const db: ApplicationDb
    const tracker: IssueTrackerClient
    /** `ITokenProtector.Unprotect`, which fails on a token it cannot read. */
    const unprotect: string -> Result<string>

    constructor (db: ApplicationDb, tracker: IssueTrackerClient, unprotect: string -> Result<string>)
      ensures this.db == db && this.tracker == tracker && this.unprotect == unprotect
    {
      this.db := db;
      this.tracker := tracker;
      this.unprotect := unprotect;
    }

    method CreateAsync(projectId: Guid, title: string, description: Option<string>,
                       newId: Guid, now: Instant, saveFault: Option<Error>) returns (r: Result<TaskDto>)
      requires db.Valid()
      modifies db`tasks, tracker
      ensures db.Valid()
      ensures
        var e := CreatePlan(old(db.projects), old(db.tasks), old(tracker.calls), unprotect,
                            tracker.createReply(|old(tracker.calls)|), projectId, title, description, newId, now, saveFault);
        r == e.result && db.tasks == e.tasks && tracker.calls == e.calls
    {
      var project := FindProject(db.projects, projectId);
      if project.None? {
        return Fail(InvalidOperation("Project not found."));
      }
      var p := project.value;
      var token := unprotect(p.gitHubTokenEncrypted);
      if token.Fail? {
        return Fail(token.error);
      }
      var created := tracker.CreateIssueAsync(p.repoOwner, p.repoName, title, description, token.value);
      if created.Fail? {
        return Fail(created.error);
      }
      var task := NewNumberedTask(newId, projectId, title, now, created.value);
      if task.Fail? {
        return Fail(task.error);
      }
      r := SaveCreated(p, token.value, created.value, task.value, saveFault);
    }

    /** The save of a created task, and the compensating close when it fails. */
    method SaveCreated(p: ProjectRow, token: string, number: int, row: TaskRow, saveFault: Option<Error>)
      returns (r: Result<TaskDto>)
      requires db.Valid()
      modifies db`tasks, tracker
      ensures db.Valid()
      ensures
        var e := SavePlan(old(db.tasks), old(tracker.calls), p, token, number, row, saveFault);
        r == e.result && db.tasks == e.tasks && tracker.calls == e.calls
    {
      var fault := SaveFault(saveFault, row.id in Keys(db.tasks, TaskId));
      if fault.Some? {
        var _ := tracker.CloseIssueAsync(p.repoOwner, p.repoName, number, token);
        return Fail(fault.value);
      }
      AppendFresh(db.tasks, TaskId, row);
      db.tasks := db.tasks + [row];
      return Ok(Map(row));
    }

    method GetByProjectIdAsync(projectId: Guid) returns (r: seq<TaskDto>)
      ensures r == ProjectListing(db.tasks, projectId)
    {
      var sorted := SortByCreatedAt(ProjectTasks(db.tasks, projectId));
      r := MapAll(sorted);
    }

    method GetByIdAsync(taskId: Guid) returns (r: Option<TaskDto>)
      ensures r.None? <==> taskId !in Keys(db.tasks, TaskId)
      ensures r.Some? ==> exists t :: t in db.tasks && t.id == taskId && r.value == Map(t)
    {
      var i := IndexOf(Keys(db.tasks, TaskId), taskId);
      if i.None? {
        return None;
      }
      assert db.tasks[i.value] in db.tasks;
      return Some(Map(db.tasks[i.value]));
    }

    method UpdateStatusAsync(taskId: Guid, status: string, now: Instant, saveFault: Option<Error>)
      returns (r: Result<Option<TaskDto>>)
      requires db.Valid()
      modifies db`tasks, tracker
      ensures db.Valid()
      ensures
        var n := |old(tracker.calls)|;
        var e := UpdateStatusPlan(old(db.projects), old(db.tasks), old(tracker.calls), unprotect,
                                  tracker.closeReply(n), tracker.reopenReply(n), taskId, status, now, saveFault);
        r == e.result && db.tasks == e.tasks && tracker.calls == e.calls
    {
      var step := PrepareMove(taskId, status, now);
      if step.Fail? {
        return Fail(step.error);
      }
      if step.value.None? {
        return Ok(None);
      }
      var (i, moved) := step.value.value;
      if saveFault.Some? {
        return Fail(saveFault.value);
      }
      ReplaceKeepingKey(db.tasks, TaskId, i, moved);
      db.tasks := db.tasks[i := moved];
      return Ok(Some(Map(moved)));
    }

    /** Everything `UpdateStatusAsync` does before the save. */
    method PrepareMove(taskId: Guid, status: string, now: Instant) returns (r: Result<Option<(nat, TaskRow)>>)
      modifies tracker
      ensures
        var n := |old(tracker.calls)|;
        (r, tracker.calls) == MovePlan(db.projects, db.tasks, old(tracker.calls), unprotect,
                                       tracker.closeReply(n), tracker.reopenReply(n), taskId, status, now)
    {
      var index := IndexOf(Keys(db.tasks, TaskId), taskId);
      if index.None? {
        return Ok(None);
      }
      var i := index.value;
      var task := db.tasks[i];
      var target := ParseStatus(status);
      if target.None? {
        return Fail(InvalidOperation("Invalid status value."));
      }
      var newStatus := target.value;
      var remote := MirrorOnGitHub(task, newStatus);
      if remote.Fail? {
        return Fail(remote.error);
      }
      var moved := Moved(task, newStatus, None, now);
      if moved.Fail? {
        return Fail(moved.error);
      }
      return Ok(Some((i, moved.value)));
    }

    /** The close or reopen request `UpdateStatusAsync` sends before moving `task`. */
    method MirrorOnGitHub(task: TaskRow, newStatus: Status) returns (r: Result<()>)
      modifies tracker
      ensures
        var n := |old(tracker.calls)|;
        (r, tracker.calls) == RemotePlan(db.projects, old(tracker.calls), unprotect, tracker.closeReply(n),
                                         tracker.reopenReply(n), task, newStatus)
    {
      if !RequiresRemoteChange(task.status, newStatus) {
        return Ok(());
      }
      var project := FindProject(db.projects, task.projectId);
      if project.None? {
        return Fail(InvalidOperation("Project not found for task."));
      }
      if task.gitHubIssueNumber.None? {
        return Fail(InvalidOperation("Task does not have an associated GitHub issue."));
      }
      var p := project.value;
      var token := unprotect(p.gitHubTokenEncrypted);
      if token.Fail? {
        return Fail(token.error);
      }
      if newStatus == Done {
        r := tracker.CloseIssueAsync(p.repoOwner, p.repoName, task.gitHubIssueNumber.value, token.value);
      } else {
        r := tracker.ReopenIssueAsync(p.repoOwner, p.repoName, task.gitHubIssueNumber.value, token.value);
      }
    }

    method GetIssueDetailsAsync(taskId: Guid) returns (r: Result<Option<IssueDetails>>)
      modifies tracker
      ensures
        var lookup := IssueLookup(db.projects, db.tasks, unprotect, taskId);
        && (lookup.Fail? ==> r == Fail(lookup.error) && tracker.calls == old(tracker.calls))
        && (lookup == Ok(None) ==> r == Ok(None) && tracker.calls == old(tracker.calls))
        && (lookup.Ok? && lookup.value.Some? ==>
              var (p, number, token) := lookup.value.value;
              var reply := tracker.detailsReply(|old(tracker.calls)|);
              && tracker.calls == old(tracker.calls) + [GetIssueDetails(p.repoOwner, p.repoName, number, token)]
              && r == (if reply.Fail? then Fail(reply.error) else Ok(Some(reply.value.(taskId := taskId)))))
    {
      var lookup := IssueLookup(db.projects, db.tasks, unprotect, taskId);
      if lookup.Fail? {
        return Fail(lookup.error);
      }
      if lookup.value.None? {
        return Ok(None);
      }
      var (p, number, token) := lookup.value.value;
      var details := tracker.GetIssueDetailsAsync(p.repoOwner, p.repoName, number, token);
      if details.Fail? {
        return Fail(details.error);
      }
      return Ok(Some(details.value.(taskId := taskId)));
    }

    method GetIssueCommentsAsync(taskId: Guid) returns (r: Result<Option<seq<IssueComment>>>)
      modifies tracker
      ensures
        var lookup := IssueLookup(db.projects, db.tasks, unprotect, taskId);
        && (lookup.Fail? ==> r == Fail(lookup.error) && tracker.calls == old(tracker.calls))
        && (lookup == Ok(None) ==> r == Ok(None) && tracker.calls == old(tracker.calls))
        && (lookup.Ok? && lookup.value.Some? ==>
              var (p, number, token) := lookup.value.value;
              var reply := tracker.commentsReply(|old(tracker.calls)|);
              && tracker.calls == old(tracker.calls) + [GetIssueComments(p.repoOwner, p.repoName, number, token)]
              && r == (if reply.Fail? then Fail(reply.error) else Ok(Some(reply.value))))
    {
      var lookup := IssueLookup(db.projects, db.tasks, unprotect, taskId);
      if lookup.Fail? {
        return Fail(lookup.error);
      }
      if lookup.value.None? {
        return Ok(None);
      }
      var (p, number, token) := lookup.value.value;
      var comments := tracker.GetIssueCommentsAsync(p.repoOwner, p.repoName, number, token);
      if comments.Fail? {
        return Fail(comments.error);
      }
      return Ok(Some(comments.value));
    }
  }
}
