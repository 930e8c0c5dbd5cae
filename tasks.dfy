/** The task entity and its status state machine.

    `TaskRow` is the value of a task (a row of the Tasks table). The functions
    `Moved`, `GitHubStatusApplied`, `TitleUpdated`, `TitleSynced` and
    `IssueNumberSet` give the row after each entity method, or the exception it
    throws; the class `Task` holds the same fields and updates them in place,
    and each of its methods is proved to agree with the matching function. */
module Tasks {
  import opened Common
  import opened Text
  import opened Required

  datatype Status = Todo | InProgress | Done

  /** `TaskStatus.ToString()` */
  function StatusName(s: Status): string {
    match s
    case Todo => "Todo"
    case InProgress => "InProgress"
    case Done => "Done"
  }

  const MaxTitleLength: nat := 250

  datatype TaskRow = TaskRow(
    id: Guid,
    projectId: Guid,
    title: string,
    status: Status,
    gitHubIssueNumber: Option<int>,
    createdAt: Instant,
    completedAt: Option<Instant>)

  /** The completion bookkeeping: a completion time is recorded exactly when the task is Done. */
  predicate CompletionInStep(t: TaskRow) {
    t.status == Done <==> t.completedAt.Some?
  }

  /** What every task created and updated through the entity satisfies. */
  predicate WellFormed(t: TaskRow) {
    && t.projectId != EmptyGuid
    && StoredForm(t.title, MaxTitleLength)
    && CompletionInStep(t)
    && (t.gitHubIssueNumber.Some? ==> t.gitHubIssueNumber.value > 0)
  }

  /** `ValidateTitle`: a title must not be blank, is kept trimmed, and has at most 250 characters once trimmed. */
  function ValidateTitle(title: string): (r: Result<string>)
    ensures r.Ok? <==> !IsBlank(title) && |Trim(title)| <= MaxTitleLength
    ensures r.Ok? ==> r.value == Trim(title) && StoredForm(r.value, MaxTitleLength)
    ensures r.Fail? ==> r.error == FieldError(title, "title", MaxTitleLength)
  {
    ValidateRequired(title, "title", MaxTitleLength)
  }

  /** The constructor `Task(projectId, title, createdAt)`; `id` is the new
      identifier and `now` the clock reading used when no time is given. */
  function NewTask(id: Guid, projectId: Guid, title: string, createdAt: Option<Instant>, now: Instant): (r: Result<TaskRow>)
    ensures projectId == EmptyGuid ==> r == Fail(DomainRule("projectId is required."))
    ensures r.Ok? <==> projectId != EmptyGuid && ValidateTitle(title).Ok?
    ensures projectId != EmptyGuid && ValidateTitle(title).Fail? ==>
      r == Fail(FieldError(title, "title", MaxTitleLength))
    ensures r.Fail? ==> r.error.DomainRule?
    ensures r.Ok? ==>
      && WellFormed(r.value)
      && r.value.id == id && r.value.projectId == projectId
      && r.value.title == Trim(title) && r.value.status == Todo
      && r.value.gitHubIssueNumber == None && r.value.completedAt == None
      && r.value.createdAt == createdAt.GetOr(now)
  {
    if projectId == EmptyGuid then
      Fail(DomainRule("projectId is required."))
    else
      var validTitle :- ValidateTitle(title);
      Ok(TaskRow(id, projectId, validTitle, Todo, None, createdAt.GetOr(now), None))
  }

  /** The row after `MoveTo(newStatus, completedAt)`, the conditional move used
      for local changes: moving to the current status changes nothing, a Done
      task may only go back to InProgress, and nothing may move to Todo. */
  function Moved(t: TaskRow, newStatus: Status, completedAt: Option<Instant>, now: Instant): (r: Result<TaskRow>)
    ensures t.status == newStatus ==> r == Ok(t)
    ensures r.Ok? <==> t.status == newStatus || (newStatus != Todo && (t.status != Done || newStatus == InProgress))
    ensures t.status == Done && newStatus == Todo ==> r == Fail(DomainRule("Done tasks cannot move to another status."))
    ensures t.status != Done && t.status != newStatus && newStatus == Todo ==> r == Fail(DomainRule("Invalid task status transition."))
    ensures r.Ok? ==> r.value.status == newStatus && r.value == t.(status := newStatus, completedAt := r.value.completedAt)
    ensures r.Ok? && t.status != newStatus && newStatus == Done ==> r.value.completedAt == Some(completedAt.GetOr(now))
    ensures r.Ok? && CompletionInStep(t) ==> CompletionInStep(r.value)
    ensures r.Ok? && WellFormed(t) ==> WellFormed(r.value)
  {
    if t.status == newStatus then
      Ok(t)
    else if t.status == Done && newStatus != InProgress then
      Fail(DomainRule("Done tasks cannot move to another status."))
    else if newStatus != InProgress && newStatus != Done then
      assert newStatus.Todo?;
      Fail(DomainRule("Invalid task status transition."))
    else if newStatus == Done then
      Ok(t.(status := Done, completedAt := Some(completedAt.GetOr(now))))
    else
      Ok(t.(status := newStatus, completedAt := None))
  }

  /** The row after `ApplyGitHubStatus(newStatus, completedAt)`, the
      unconditional move used for inbound changes: Todo is refused, anything
      else is written even when it equals the current status, which refreshes
      the completion time. */
  function GitHubStatusApplied(t: TaskRow, newStatus: Status, completedAt: Option<Instant>, now: Instant): (r: Result<TaskRow>)
    ensures r.Ok? <==> newStatus != Todo
    ensures r.Fail? ==> r.error == DomainRule("Invalid task status from GitHub.")
    ensures r.Ok? ==>
      && r.value.status == newStatus
      && CompletionInStep(r.value)
      && (newStatus == Done ==> r.value.completedAt == Some(completedAt.GetOr(now)))
      && r.value == t.(status := newStatus, completedAt := r.value.completedAt)
    ensures r.Ok? && WellFormed(t) ==> WellFormed(r.value)
  {
    if newStatus != InProgress && newStatus != Done then
      assert newStatus.Todo?;
      Fail(DomainRule("Invalid task status from GitHub."))
    else if newStatus == Done then
      Ok(t.(status := Done, completedAt := Some(completedAt.GetOr(now))))
    else
      Ok(t.(status := newStatus, completedAt := None))
  }

  /** The row after `UpdateTitle(title)`: refused on a Done task, otherwise the validated title. */
  function TitleUpdated(t: TaskRow, title: string): (r: Result<TaskRow>)
    ensures r.Ok? <==> t.status != Done && ValidateTitle(title).Ok?
    ensures t.status == Done ==> r == Fail(DomainRule("Done tasks cannot be edited."))
    ensures r.Ok? ==> r.value == t.(title := Trim(title))
    ensures r.Ok? && WellFormed(t) ==> WellFormed(r.value)
  {
    if t.status == Done then
      Fail(DomainRule("Done tasks cannot be edited."))
    else
      var validTitle :- ValidateTitle(title);
      Ok(t.(title := validTitle))
  }

  /** The row after `SyncTitleFromGitHub(title)`: the validated title, whatever the status. */
  function TitleSynced(t: TaskRow, title: string): (r: Result<TaskRow>)
    ensures r.Ok? <==> ValidateTitle(title).Ok?
    ensures r.Ok? ==> r.value == t.(title := Trim(title))
    ensures r.Ok? && WellFormed(t) ==> WellFormed(r.value)
  {
    var validTitle :- ValidateTitle(title);
    Ok(t.(title := validTitle))
  }

  /** The row after `SetGitHubIssueNumber(number)`: a positive number
      overwrites whatever was there (there is no set-once check). */
  function IssueNumberSet(t: TaskRow, number: int): (r: Result<TaskRow>)
    ensures r.Ok? <==> number > 0
    ensures r.Fail? ==> r.error == DomainRule("gitHubIssueNumber must be greater than zero.")
    ensures r.Ok? ==> r.value == t.(gitHubIssueNumber := Some(number))
    ensures r.Ok? && WellFormed(t) ==> WellFormed(r.value)
  {
    if number <= 0 then
      Fail(DomainRule("gitHubIssueNumber must be greater than zero."))
    else
      Ok(t.(gitHubIssueNumber := Some(number)))
  }

  /** One call of an entity method, with the clock reading it would see. */
  datatype TaskOp =
    | Move(status: Status, completedAt: Option<Instant>, at: Instant)
    | ApplyRemote(status: Status, completedAt: Option<Instant>, at: Instant)
    | EditTitle(title: string)
    | SyncTitle(title: string)
    | SetIssue(number: int)

  /** The row after one call; a call that throws leaves the entity as it was. */
  function Step(t: TaskRow, op: TaskOp): TaskRow {
    var r := match op
      case Move(s, c, at) => Moved(t, s, c, at)
      case ApplyRemote(s, c, at) => GitHubStatusApplied(t, s, c, at)
      case EditTitle(title) => TitleUpdated(t, title)
      case SyncTitle(title) => TitleSynced(t, title)
      case SetIssue(n) => IssueNumberSet(t, n);
    if r.Ok? then r.value else t
  }

  /** The row after a sequence of calls. */
  function Run(t: TaskRow, ops: seq<TaskOp>): TaskRow
    decreases |ops|
  {
    if ops == [] then t else Run(Step(t, ops[0]), ops[1..])
  }

  /** Whatever the entity's methods are called with, and whichever of them
      throw, a task stays well formed: in particular it is Done exactly when
      it has a completion time. */
  lemma {:induction false} RunPreservesWellFormed(t: TaskRow, ops: seq<TaskOp>)
    requires WellFormed(t)
    ensures WellFormed(Run(t, ops))
    decreases |ops|
  {
    if ops != [] {
      RunPreservesWellFormed(Step(t, ops[0]), ops[1..]);
    }
  }

  /** The entity itself, updated in place. */
  class Task {
    var Id: Guid
    var ProjectId: Guid
    var Title: string
    var Status: Status
    var GitHubIssueNumber: Option<int>
    var CreatedAt: Instant
    var CompletedAt: Option<Instant>

    /** The current value of the entity. */
    function Row(): TaskRow
      reads this
    {
      TaskRow(Id, ProjectId, Title, Status, GitHubIssueNumber, CreatedAt, CompletedAt)
    }

    constructor Init(id: Guid, projectId: Guid, title: string, createdAt: Instant)
      ensures Row() == TaskRow(id, projectId, title, Todo, None, createdAt, None)
    {
      Id := id;
      ProjectId := projectId;
      Title := title;
      Status := Todo;
      GitHubIssueNumber := None;
      CreatedAt := createdAt;
      CompletedAt := None;
    }

    /** The validating constructor: throws on an empty project id or a bad title. */
    static method Create(id: Guid, projectId: Guid, title: string, createdAt: Option<Instant>, now: Instant)
      returns (r: Result<Task>)
      ensures r.Ok? <==> NewTask(id, projectId, title, createdAt, now).Ok?
      ensures r.Ok? ==> fresh(r.value) && r.value.Row() == NewTask(id, projectId, title, createdAt, now).value
      ensures r.Fail? ==> r.error == NewTask(id, projectId, title, createdAt, now).error
    {
      if projectId == EmptyGuid {
        return Fail(DomainRule("projectId is required."));
      }
      var validTitle := ValidateTitle(title);
      if validTitle.Fail? {
        return Fail(validTitle.error);
      }
      var task := new Task.Init(id, projectId, validTitle.value, createdAt.GetOr(now));
      return Ok(task);
    }

    method UpdateTitle(title: string) returns (r: Result<()>)
      modifies this
      ensures r.Ok? <==> TitleUpdated(old(Row()), title).Ok?
      ensures r.Ok? ==> Row() == TitleUpdated(old(Row()), title).value
      ensures r.Fail? ==> Row() == old(Row()) && r.error == TitleUpdated(old(Row()), title).error
    {
      if Status == Done {
        return Fail(DomainRule("Done tasks cannot be edited."));
      }
      var validTitle := ValidateTitle(title);
      if validTitle.Fail? {
        return Fail(validTitle.error);
      }
      Title := validTitle.value;
      return Ok(());
    }

    method SyncTitleFromGitHub(title: string) returns (r: Result<()>)
      modifies this
      ensures r.Ok? <==> TitleSynced(old(Row()), title).Ok?
      ensures r.Ok? ==> Row() == TitleSynced(old(Row()), title).value
      ensures r.Fail? ==> Row() == old(Row()) && r.error == TitleSynced(old(Row()), title).error
    {
      var validTitle := ValidateTitle(title);
      if validTitle.Fail? {
        return Fail(validTitle.error);
      }
      Title := validTitle.value;
      return Ok(());
    }

    method SetGitHubIssueNumber(number: int) returns (r: Result<()>)
      modifies this
      ensures r.Ok? <==> IssueNumberSet(old(Row()), number).Ok?
      ensures r.Ok? ==> Row() == IssueNumberSet(old(Row()), number).value
      ensures r.Fail? ==> Row() == old(Row()) && r.error == IssueNumberSet(old(Row()), number).error
    {
      if number <= 0 {
        return Fail(DomainRule("gitHubIssueNumber must be greater than zero."));
      }
      GitHubIssueNumber := Some(number);
      return Ok(());
    }

    method MoveTo(newStatus: Status, completedAt: Option<Instant>, now: Instant) returns (r: Result<()>)
      modifies this
      ensures r.Ok? <==> Moved(old(Row()), newStatus, completedAt, now).Ok?
      ensures r.Ok? ==> Row() == Moved(old(Row()), newStatus, completedAt, now).value
      ensures r.Fail? ==> Row() == old(Row()) && r.error == Moved(old(Row()), newStatus, completedAt, now).error
    {
      if Status == newStatus {
        return Ok(());
      }
      if Status == Done && newStatus != InProgress {
        return Fail(DomainRule("Done tasks cannot move to another status."));
      }
      if newStatus != InProgress && newStatus != Done {
        return Fail(DomainRule("Invalid task status transition."));
      }
      Status := newStatus;
      if newStatus == Done {
        CompletedAt := Some(completedAt.GetOr(now));
        return Ok(());
      }
      CompletedAt := None;
      return Ok(());
    }

    method ApplyGitHubStatus(newStatus: Status, completedAt: Option<Instant>, now: Instant) returns (r: Result<()>)
      modifies this
      ensures r.Ok? <==> GitHubStatusApplied(old(Row()), newStatus, completedAt, now).Ok?
      ensures r.Ok? ==> Row() == GitHubStatusApplied(old(Row()), newStatus, completedAt, now).value
      ensures r.Fail? ==> Row() == old(Row()) && r.error == GitHubStatusApplied(old(Row()), newStatus, completedAt, now).error
    {
      if newStatus != InProgress && newStatus != Done {
        return Fail(DomainRule("Invalid task status from GitHub."));
      }
      Status := newStatus;
      if newStatus == Done {
        CompletedAt := Some(completedAt.GetOr(now));
        return Ok(());
      }
      CompletedAt := None;
      return Ok(());
    }
  }
}
