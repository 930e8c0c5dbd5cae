/** `GitHubWebhookService`: an inbound `issues` delivery is filtered by event
    name, its signature is checked, a delivery already in the ledger is
    skipped, the payload is checked, the task linked to the issue is updated,
    the delivery is recorded, and a change is announced to the board.
    JSON parsing and the HMAC are parameters; the realtime notifier is a log. */
module Webhooks {
  import opened Common
  import opened Text
  import opened Tables
  import opened Tasks
  import opened Projects
  import opened WebhookDeliveries
  import opened Persistence
  import opened Signatures

  /** The parts of a GitHub `issues` payload the service reads; JSON `null`
      and missing members are `None`. */
  datatype OwnerPayload = OwnerPayload(login: Option<string>)
  datatype RepositoryPayload = RepositoryPayload(name: Option<string>, owner: Option<OwnerPayload>)
  datatype IssuePayload = IssuePayload(number: int, title: Option<string>)
  datatype WebhookPayload = WebhookPayload(
    action: Option<string>,
    issue: Option<IssuePayload>,
    repository: Option<RepositoryPayload>)

  /** `JsonSerializer.Deserialize`: `Ok(None)` for the JSON literal `null`,
      a failure for text that is not JSON of the expected shape. */
  type PayloadParser = string -> Result<Option<WebhookPayload>>

  /** `TaskUpdatedEvent`, the message sent to the board over the realtime channel. */
  datatype TaskUpdatedEvent = TaskUpdatedEvent(
    taskId: Guid,
    projectId: Guid,
    status: string,
    completedAt: Option<Instant>,
    updatedFrom: string)

  /** The repository and issue a delivery is about. */
  datatype IssueKey = IssueKey(repoOwner: string, repoName: string, number: int)

  /** A value that is present and not blank. */
  predicate Present(s: Option<string>) {
    s.Some? && !IsBlank(s.value)
  }

  /** The payload checks of `ProcessAsync`: the payload must not be `null`, must carry
      the issue, the repository and its owner, and the trimmed owner login and
      repository name must not be blank, with a positive issue number. */
  function IssueKeyOf(payload: Option<WebhookPayload>): (r: Result<IssueKey>)
    ensures r.Fail? ==> r.error.InvalidOperation?
    ensures r.Ok? ==> r.value.number > 0 && r.value.repoOwner != [] && r.value.repoName != []
  {
    match payload
    case None => Fail(InvalidOperation("Invalid GitHub webhook payload."))
    case Some(p) =>
      match (p.issue, p.repository)
      case (Some(issue), Some(RepositoryPayload(name, Some(OwnerPayload(login))))) =>
        if !Present(login) || !Present(name) || issue.number <= 0 then
          Fail(InvalidOperation("GitHub webhook payload contains invalid repository or issue values."))
        else
          Ok(IssueKey(Trim(login.value), Trim(name.value), issue.number))
      case _ => Fail(InvalidOperation("GitHub webhook payload is missing issue or repository data."))
  }

  /** A payload is accepted exactly when it carries all the parts, with a
      present owner login and repository name and a positive issue number;
      the key holds their trimmed forms. */
  lemma IssueKeyOfAccepts(payload: Option<WebhookPayload>)
    ensures IssueKeyOf(payload).Ok? <==>
      && payload.Some? && payload.value.issue.Some? && payload.value.repository.Some?
      && payload.value.repository.value.owner.Some?
      && Present(payload.value.repository.value.owner.value.login)
      && Present(payload.value.repository.value.name)
      && payload.value.issue.value.number > 0
    ensures IssueKeyOf(payload).Ok? ==>
      IssueKeyOf(payload).value == IssueKey(Trim(payload.value.repository.value.owner.value.login.value),
                                            Trim(payload.value.repository.value.name.value),
                                            payload.value.issue.value.number)
  {
    match payload
    case None =>
    case Some(p) =>
      match (p.issue, p.repository)
      case (Some(issue), Some(RepositoryPayload(name, Some(OwnerPayload(login))))) =>
      case _ =>
  }

  /** The errors of the payload checks, in the order they are made. */
  lemma IssueKeyOfErrors(payload: Option<WebhookPayload>)
    ensures payload.None? ==> IssueKeyOf(payload) == Fail(InvalidOperation("Invalid GitHub webhook payload."))
    ensures payload.Some? && (payload.value.issue.None? || payload.value.repository.None? ||
                              payload.value.repository.value.owner.None?) ==>
      IssueKeyOf(payload) == Fail(InvalidOperation("GitHub webhook payload is missing issue or repository data."))
    ensures payload.Some? && payload.value.issue.Some? && payload.value.repository.Some? &&
            payload.value.repository.value.owner.Some? && payload.value.issue.value.number <= 0 ==>
      IssueKeyOf(payload) ==
        Fail(InvalidOperation("GitHub webhook payload contains invalid repository or issue values."))
  {
  }

  /** The condition of the task query: the task carries the issue number and
      its project (joined through the foreign key) is the repository. */
  predicate LinkedTo(projects: seq<ProjectRow>, t: TaskRow, key: IssueKey) {
    && t.gitHubIssueNumber == Some(key.number)
    && FindProject(projects, t.projectId).Some?
    && FindProject(projects, t.projectId).value.repoOwner == key.repoOwner
    && FindProject(projects, t.projectId).value.repoName == key.repoName
  }

  /** `FirstOrDefaultAsync` on that condition: the position of the first linked task. */
  function FindLinkedTask(projects: seq<ProjectRow>, tasks: seq<TaskRow>, key: IssueKey): (r: Option<nat>)
    ensures r.None? <==> forall i :: 0 <= i < |tasks| ==> !LinkedTo(projects, tasks[i], key)
    ensures r.Some? ==>
      && r.value < |tasks| && LinkedTo(projects, tasks[r.value], key)
      && forall j :: 0 <= j < r.value ==> !LinkedTo(projects, tasks[j], key)
    decreases |tasks|
  {
    if tasks == [] then None
    else if LinkedTo(projects, tasks[0], key) then Some(0)
    else
      match FindLinkedTask(projects, tasks[1..], key)
      case None => None
      case Some(i) => Some(i + 1)
  }

  /** The actions the service reacts to. */
  datatype ActionKind = Closed | Reopened | Edited | Ignored

  /** `action.Trim().ToLowerInvariant()` matched against the switch labels;
      a missing or blank action is ignored. */
  function KindOf(action: Option<string>): (k: ActionKind)
    ensures k == Closed <==> Present(action) && ToLower(Trim(action.value)) == "closed"
    ensures k == Reopened <==> Present(action) && ToLower(Trim(action.value)) == "reopened"
    ensures k == Edited <==> Present(action) && ToLower(Trim(action.value)) == "edited"
  {
    if !Present(action) then Ignored
    else
      var verb := ToLower(Trim(action.value));
      if verb == "closed" then Closed
      else if verb == "reopened" then Reopened
      else if verb == "edited" then Edited
      else Ignored
  }

  /** `ApplyWebhookAction(task, action, issueTitle)`: the task after the
      action and whether it changed. `closed` and `reopened` always report a
      change; `edited` only when the issue title is present and its trimmed
      form differs from the task's title; anything else changes nothing. */
  function ApplyWebhookAction(t: TaskRow, action: Option<string>, issueTitle: Option<string>, now: Instant)
    : (r: Result<(TaskRow, bool)>)
    ensures r.Ok? ==> r.value.0.id == t.id && r.value.0.projectId == t.projectId
    ensures r.Ok? && !r.value.1 ==> r.value.0 == t
    ensures r.Ok? && Tasks.WellFormed(t) ==> Tasks.WellFormed(r.value.0)
  {
    match KindOf(action)
    case Closed => Ok((GitHubStatusApplied(t, Done, None, now).value, true))
    case Reopened => Ok((GitHubStatusApplied(t, InProgress, None, now).value, true))
    case Edited =>
      if !Present(issueTitle) || t.title == Trim(issueTitle.value) then Ok((t, false))
      else
        var row :- TitleSynced(t, issueTitle.value);
        Ok((row, true))
    case Ignored => Ok((t, false))
  }

  /** `closed` completes the task now and `reopened` puts it back in
      progress; both report a change even when the status was already that. */
  lemma StatusActions(t: TaskRow, action: Option<string>, issueTitle: Option<string>, now: Instant)
    ensures KindOf(action) == Closed ==>
      ApplyWebhookAction(t, action, issueTitle, now) == Ok((t.(status := Done, completedAt := Some(now)), true))
    ensures KindOf(action) == Reopened ==>
      ApplyWebhookAction(t, action, issueTitle, now) == Ok((t.(status := InProgress, completedAt := None), true))
  {
  }

  /** `edited` takes the trimmed issue title when it is present and differs
      from the task's title, and fails as the entity does on an overlong one;
      a missing, blank or equal title changes nothing. */
  lemma EditedAction(t: TaskRow, action: Option<string>, issueTitle: Option<string>, now: Instant)
    requires KindOf(action) == Edited
    ensures Present(issueTitle) && Trim(issueTitle.value) != t.title ==>
      ApplyWebhookAction(t, action, issueTitle, now) ==
        (if |Trim(issueTitle.value)| <= MaxTitleLength then Ok((t.(title := Trim(issueTitle.value)), true))
         else Fail(ValidateTitle(issueTitle.value).error))
    ensures !(Present(issueTitle) && Trim(issueTitle.value) != t.title) ==>
      ApplyWebhookAction(t, action, issueTitle, now) == Ok((t, false))
  {
    var r := ApplyWebhookAction(t, action, issueTitle, now);
    if Present(issueTitle) && Trim(issueTitle.value) != t.title {
      var v := ValidateTitle(issueTitle.value);
      assert r == if v.Ok? then Ok((t.(title := v.value), true)) else Fail(v.error);
    } else {
      assert r == Ok((t, false));
    }
  }

  /** A missing, blank or unknown action changes nothing. */
  lemma OtherActionsIgnored(t: TaskRow, action: Option<string>, issueTitle: Option<string>, now: Instant)
    requires !Present(action) || ToLower(Trim(action.value)) !in {"closed", "reopened", "edited"}
    ensures ApplyWebhookAction(t, action, issueTitle, now) == Ok((t, false))
  {
  }

  /** The event announced after a task changed: it names the task, its
      project, its status and completion time, and the webhook as its origin. */
  function UpdatedEvent(t: TaskRow): (r: TaskUpdatedEvent)
    ensures r.taskId == t.id && r.projectId == t.projectId && r.completedAt == t.completedAt
    ensures forall s :: r.status == StatusName(s) <==> s == t.status
    ensures r.updatedFrom == "webhook"
  {
    TaskUpdatedEvent(t.id, t.projectId, StatusName(t.status), t.completedAt, "webhook")
  }

  /** What a delivery does: its outcome, the Tasks table, the delivery
      ledger and the notification log afterwards. */
  datatype Outcome = Outcome(
    result: Result<()>,
    tasks: seq<TaskRow>,
    deliveries: seq<DeliveryRow>,
    notifications: seq<TaskUpdatedEvent>)

  /** Whether the ledger records `deliveryId`, compared as received. */
  predicate Recorded(deliveries: seq<DeliveryRow>, deliveryId: string) {
    deliveryId in Keys(deliveries, DeliveryKey)
  }

  /** The title the issue carries, if any. */
  function IssueTitle(p: WebhookPayload): Option<string> {
    if p.issue.Some? then p.issue.value.title else None
  }

  /** The task a delivery changes: its position in the table, its row after
      the action, and whether the action changed it. */
  datatype Applied = Applied(index: nat, row: TaskRow, changed: bool)

  /** The task lookup and the action step of `ProcessAsync`: the first task
      linked to the issue, with the action applied to it. */
  function TaskStep(projects: seq<ProjectRow>, tasks: seq<TaskRow>, p: WebhookPayload, key: IssueKey, now: Instant)
    : (r: Result<Option<Applied>>)
    ensures r.Ok? && r.value.Some? ==>
      var a := r.value.value;
      && a.index < |tasks| && LinkedTo(projects, tasks[a.index], key)
      && (forall j :: 0 <= j < a.index ==> !LinkedTo(projects, tasks[j], key))
      && a.row.id == tasks[a.index].id
      && (!a.changed ==> a.row == tasks[a.index])
      && (Tasks.WellFormed(tasks[a.index]) ==> Tasks.WellFormed(a.row))
    ensures r.Ok? && r.value.None? <==> forall i :: 0 <= i < |tasks| ==> !LinkedTo(projects, tasks[i], key)
  {
    match FindLinkedTask(projects, tasks, key)
    case None => Ok(None)
    case Some(i) =>
      var after :- ApplyWebhookAction(tasks[i], p.action, IssueTitle(p), now);
      Ok(Some(Applied(i, after.0, after.1)))
  }

  /** The ledger write and save of `ProcessAsync`: record the delivery, save (which can fail, and fails
      on a repeated key), then announce a change of the linked task. */
  function RecordPlan(tasks: seq<TaskRow>, deliveries: seq<DeliveryRow>, notifications: seq<TaskUpdatedEvent>,
                      applied: Option<Applied>, eventName: string, deliveryId: string, newId: Guid, now: Instant,
                      saveFault: Option<Error>)
    : (e: Outcome)
    requires applied.Some? ==> applied.value.index < |tasks| && applied.value.row.id == tasks[applied.value.index].id
    requires NoDuplicates(Keys(tasks, TaskId))
    requires NoDuplicates(Keys(deliveries, DeliveryRowId)) && NoDuplicates(Keys(deliveries, DeliveryKey))
    ensures NoDuplicates(Keys(e.tasks, TaskId))
    ensures NoDuplicates(Keys(e.deliveries, DeliveryRowId)) && NoDuplicates(Keys(e.deliveries, DeliveryKey))
    ensures e.result.Fail? ==> e.tasks == tasks && e.deliveries == deliveries && e.notifications == notifications
  {
    match NewDelivery(newId, deliveryId, eventName, None, now)
    case Fail(err) => Outcome(Fail(err), tasks, deliveries, notifications)
    case Ok(d) => SaveDelivery(tasks, deliveries, notifications, applied, d, saveFault)
  }

  /** The save itself (`SaveChangesAsync`): it fails on an injected fault or a repeated key, and
      otherwise stores the delivery. */
  function SaveDelivery(tasks: seq<TaskRow>, deliveries: seq<DeliveryRow>, notifications: seq<TaskUpdatedEvent>,
                        applied: Option<Applied>, d: DeliveryRow, saveFault: Option<Error>)
    : (e: Outcome)
    requires applied.Some? ==> applied.value.index < |tasks| && applied.value.row.id == tasks[applied.value.index].id
    requires NoDuplicates(Keys(tasks, TaskId))
    requires NoDuplicates(Keys(deliveries, DeliveryRowId)) && NoDuplicates(Keys(deliveries, DeliveryKey))
    ensures NoDuplicates(Keys(e.tasks, TaskId))
    ensures NoDuplicates(Keys(e.deliveries, DeliveryRowId)) && NoDuplicates(Keys(e.deliveries, DeliveryKey))
    ensures e.result.Fail? ==> e.tasks == tasks && e.deliveries == deliveries && e.notifications == notifications
    ensures d.deliveryId in Keys(deliveries, DeliveryKey) ==> e.result.Fail?
  {
    match SaveFault(saveFault, d.id in Keys(deliveries, DeliveryRowId) || d.deliveryId in Keys(deliveries, DeliveryKey))
    case Some(err) => Outcome(Fail(err), tasks, deliveries, notifications)
    case None => StoreDelivery(tasks, deliveries, notifications, applied, d)
  }

  /** The ledger write and save once the save went through: the ledger entry is
      appended, the task written back, and a change announced. */
  function StoreDelivery(tasks: seq<TaskRow>, deliveries: seq<DeliveryRow>, notifications: seq<TaskUpdatedEvent>,
                         applied: Option<Applied>, d: DeliveryRow)
    : (e: Outcome)
    requires applied.Some? ==> applied.value.index < |tasks| && applied.value.row.id == tasks[applied.value.index].id
    requires NoDuplicates(Keys(tasks, TaskId))
    requires NoDuplicates(Keys(deliveries, DeliveryRowId)) && NoDuplicates(Keys(deliveries, DeliveryKey))
    requires d.id !in Keys(deliveries, DeliveryRowId) && d.deliveryId !in Keys(deliveries, DeliveryKey)
    ensures NoDuplicates(Keys(e.tasks, TaskId))
    ensures NoDuplicates(Keys(e.deliveries, DeliveryRowId)) && NoDuplicates(Keys(e.deliveries, DeliveryKey))
    ensures e.result == Ok(()) && e.deliveries == deliveries + [d]
    ensures applied.None? ==> e.tasks == tasks && e.notifications == notifications
    ensures applied.Some? ==> e.tasks == tasks[applied.value.index := applied.value.row]
    ensures applied.Some? ==>
      e.notifications == if applied.value.changed then notifications + [UpdatedEvent(applied.value.row)] else notifications
  {
    AppendFresh(deliveries, DeliveryRowId, d);
    AppendFresh(deliveries, DeliveryKey, d);
    match applied
    case None => Outcome(Ok(()), tasks, deliveries + [d], notifications)
    case Some(a) =>
      ReplaceKeepingKey(tasks, TaskId, a.index, a.row);
      Outcome(Ok(()), tasks[a.index := a.row], deliveries + [d],
              if a.changed then notifications + [UpdatedEvent(a.row)] else notifications)
  }

  /** `ProcessAsync(eventName, deliveryId, signature, payload)`. */
  function ProcessPlan(projects: seq<ProjectRow>, tasks: seq<TaskRow>, deliveries: seq<DeliveryRow>,
                       notifications: seq<TaskUpdatedEvent>, parse: PayloadParser, hmac: Hmac, secret: string,
                       eventName: string, deliveryId: string, signature: string, payload: string,
                       newId: Guid, now: Instant, saveFault: Option<Error>)
    : (e: Outcome)
    requires NoDuplicates(Keys(tasks, TaskId))
    requires NoDuplicates(Keys(deliveries, DeliveryRowId)) && NoDuplicates(Keys(deliveries, DeliveryKey))
    ensures NoDuplicates(Keys(e.tasks, TaskId))
    ensures NoDuplicates(Keys(e.deliveries, DeliveryRowId)) && NoDuplicates(Keys(e.deliveries, DeliveryKey))
    ensures e.result.Fail? ==> e.tasks == tasks && e.deliveries == deliveries && e.notifications == notifications
  {
    var ignored := Outcome(Ok(()), tasks, deliveries, notifications);
    if !EqualsIgnoreCase(eventName, "issues") then ignored
    else
      match Validate(hmac, secret, payload, signature)
      case Fail(err) => Outcome(Fail(err), tasks, deliveries, notifications)
      case Ok(_) =>
        if Recorded(deliveries, deliveryId) then ignored
        else
          match parse(payload)
          case Fail(err) => Outcome(Fail(err), tasks, deliveries, notifications)
          case Ok(parsed) =>
            match IssueKeyOf(parsed)
            case Fail(err) => Outcome(Fail(err), tasks, deliveries, notifications)
            case Ok(key) =>
              match TaskStep(projects, tasks, parsed.value, key, now)
              case Fail(err) => Outcome(Fail(err), tasks, deliveries, notifications)
              case Ok(applied) =>
                RecordPlan(tasks, deliveries, notifications, applied, eventName, deliveryId, newId, now, saveFault)
  }

  /** A new, well-signed `issues` delivery with a readable payload whose
      action applies reaches the recording step. */
  lemma ProcessReachesRecord(projects: seq<ProjectRow>, tasks: seq<TaskRow>, deliveries: seq<DeliveryRow>,
                             notifications: seq<TaskUpdatedEvent>, parse: PayloadParser, hmac: Hmac, secret: string,
                             eventName: string, deliveryId: string, signature: string, payload: string,
                             newId: Guid, now: Instant, saveFault: Option<Error>, p: WebhookPayload, key: IssueKey)
    requires NoDuplicates(Keys(tasks, TaskId))
    requires NoDuplicates(Keys(deliveries, DeliveryRowId)) && NoDuplicates(Keys(deliveries, DeliveryKey))
    requires EqualsIgnoreCase(eventName, "issues") && Validate(hmac, secret, payload, signature).Ok?
    requires !Recorded(deliveries, deliveryId)
    requires parse(payload) == Ok(Some(p)) && IssueKeyOf(Some(p)) == Ok(key)
    requires TaskStep(projects, tasks, p, key, now).Ok?
    ensures ProcessPlan(projects, tasks, deliveries, notifications, parse, hmac, secret, eventName, deliveryId,
                        signature, payload, newId, now, saveFault)
            == RecordPlan(tasks, deliveries, notifications, TaskStep(projects, tasks, p, key, now).value,
                          eventName, deliveryId, newId, now, saveFault)
  {
  }

  /** An event other than `issues`, in any letter case, is ignored before the
      signature is even looked at. */
  lemma OtherEventsIgnored(projects: seq<ProjectRow>, tasks: seq<TaskRow>, deliveries: seq<DeliveryRow>,
                           notifications: seq<TaskUpdatedEvent>, parse: PayloadParser, hmac: Hmac, secret: string,
                           eventName: string, deliveryId: string, signature: string, payload: string,
                           newId: Guid, now: Instant, saveFault: Option<Error>)
    requires NoDuplicates(Keys(tasks, TaskId))
    requires NoDuplicates(Keys(deliveries, DeliveryRowId)) && NoDuplicates(Keys(deliveries, DeliveryKey))
    requires !EqualsIgnoreCase(eventName, "issues")
    ensures ProcessPlan(projects, tasks, deliveries, notifications, parse, hmac, secret, eventName, deliveryId,
                        signature, payload, newId, now, saveFault)
            == Outcome(Ok(()), tasks, deliveries, notifications)
  {
  }

  /** A delivery whose signature is refused changes nothing: no ledger entry,
      no task change, no notification; the validator's error is the outcome. */
  lemma RejectedSignatureChangesNothing(projects: seq<ProjectRow>, tasks: seq<TaskRow>, deliveries: seq<DeliveryRow>,
                                        notifications: seq<TaskUpdatedEvent>, parse: PayloadParser, hmac: Hmac,
                                        secret: string, eventName: string, deliveryId: string, signature: string,
                                        payload: string, newId: Guid, now: Instant, saveFault: Option<Error>)
    requires NoDuplicates(Keys(tasks, TaskId))
    requires NoDuplicates(Keys(deliveries, DeliveryRowId)) && NoDuplicates(Keys(deliveries, DeliveryKey))
    requires EqualsIgnoreCase(eventName, "issues") && Validate(hmac, secret, payload, signature).Fail?
    ensures ProcessPlan(projects, tasks, deliveries, notifications, parse, hmac, secret, eventName, deliveryId,
                        signature, payload, newId, now, saveFault)
            == Outcome(Fail(Validate(hmac, secret, payload, signature).error), tasks, deliveries, notifications)
  {
  }

  /** A delivery id already in the ledger is a no-op. */
  lemma RecordedDeliveryIgnored(projects: seq<ProjectRow>, tasks: seq<TaskRow>, deliveries: seq<DeliveryRow>,
                                notifications: seq<TaskUpdatedEvent>, parse: PayloadParser, hmac: Hmac,
                                secret: string, eventName: string, deliveryId: string, signature: string,
                                payload: string, newId: Guid, now: Instant, saveFault: Option<Error>)
    requires NoDuplicates(Keys(tasks, TaskId))
    requires NoDuplicates(Keys(deliveries, DeliveryRowId)) && NoDuplicates(Keys(deliveries, DeliveryKey))
    requires Validate(hmac, secret, payload, signature).Ok? && Recorded(deliveries, deliveryId)
    ensures ProcessPlan(projects, tasks, deliveries, notifications, parse, hmac, secret, eventName, deliveryId,
                        signature, payload, newId, now, saveFault)
            == Outcome(Ok(()), tasks, deliveries, notifications)
  {
  }

  /** A new, well-signed delivery with a readable payload whose action applies
      and whose save succeeds: exactly one ledger entry is appended, holding
      the trimmed delivery id, whether or not a task matched; the first task
      linked to the issue is written back; and one event, carrying the task's
      status, completion time and the source `webhook`, is sent exactly when
      the action changed the task. */
  lemma AcceptedDelivery(projects: seq<ProjectRow>, tasks: seq<TaskRow>, deliveries: seq<DeliveryRow>,
                         notifications: seq<TaskUpdatedEvent>, parse: PayloadParser, hmac: Hmac, secret: string,
                         eventName: string, deliveryId: string, signature: string, payload: string,
                         newId: Guid, now: Instant, p: WebhookPayload, key: IssueKey)
    requires NoDuplicates(Keys(tasks, TaskId))
    requires NoDuplicates(Keys(deliveries, DeliveryRowId)) && NoDuplicates(Keys(deliveries, DeliveryKey))
    requires EqualsIgnoreCase(eventName, "issues") && Validate(hmac, secret, payload, signature).Ok?
    requires !Recorded(deliveries, deliveryId)
    requires parse(payload) == Ok(Some(p)) && IssueKeyOf(Some(p)) == Ok(key)
    requires TaskStep(projects, tasks, p, key, now).Ok?
    requires NewDelivery(newId, deliveryId, eventName, None, now).Ok?
    requires newId !in Keys(deliveries, DeliveryRowId) && Trim(deliveryId) !in Keys(deliveries, DeliveryKey)
    ensures
      var e := ProcessPlan(projects, tasks, deliveries, notifications, parse, hmac, secret, eventName, deliveryId,
                           signature, payload, newId, now, None);
      var applied := TaskStep(projects, tasks, p, key, now).value;
      && e.result == Ok(())
      && e.deliveries == deliveries + [DeliveryRow(newId, Trim(deliveryId), Trim(eventName), now)]
      && (applied.None? ==> e.tasks == tasks && e.notifications == notifications)
      && (applied.Some? ==>
            var a := applied.value;
            && (forall j :: 0 <= j < a.index ==> !LinkedTo(projects, tasks[j], key))
            && e.tasks == tasks[a.index := a.row]
            && e.notifications ==
                 (if a.changed
                  then notifications + [TaskUpdatedEvent(a.row.id, a.row.projectId, StatusName(a.row.status),
                                                         a.row.completedAt, "webhook")]
                  else notifications))
  {
    var applied := TaskStep(projects, tasks, p, key, now).value;
    ProcessReachesRecord(projects, tasks, deliveries, notifications, parse, hmac, secret, eventName, deliveryId,
                         signature, payload, newId, now, None, p, key);
    var d := NewDelivery(newId, deliveryId, eventName, None, now).value;
    assert d == DeliveryRow(newId, Trim(deliveryId), Trim(eventName), now);
    assert RecordPlan(tasks, deliveries, notifications, applied, eventName, deliveryId, newId, now, None)
        == StoreDelivery(tasks, deliveries, notifications, applied, d);
  }

  /** The ledger never records a delivery id twice: processing the same
      delivery again, in the state the first processing left, adds no entry,
      whatever else happens. */
  lemma RedeliveryNotRecordedTwice(projects: seq<ProjectRow>, tasks: seq<TaskRow>, deliveries: seq<DeliveryRow>,
                                   notifications: seq<TaskUpdatedEvent>, parse: PayloadParser, hmac: Hmac,
                                   secret: string, eventName: string, deliveryId: string, signature: string,
                                   payload: string, newId: Guid, now: Instant, saveFault: Option<Error>,
                                   newId2: Guid, now2: Instant, saveFault2: Option<Error>)
    requires NoDuplicates(Keys(tasks, TaskId))
    requires NoDuplicates(Keys(deliveries, DeliveryRowId)) && NoDuplicates(Keys(deliveries, DeliveryKey))
    requires
      var e := ProcessPlan(projects, tasks, deliveries, notifications, parse, hmac, secret, eventName, deliveryId,
                           signature, payload, newId, now, saveFault);
      e.deliveries != deliveries
    ensures
      var e := ProcessPlan(projects, tasks, deliveries, notifications, parse, hmac, secret, eventName, deliveryId,
                           signature, payload, newId, now, saveFault);
      var again := ProcessPlan(projects, e.tasks, e.deliveries, e.notifications, parse, hmac, secret, eventName,
                               deliveryId, signature, payload, newId2, now2, saveFault2);
      again.deliveries == e.deliveries
  {
    var e := ProcessPlan(projects, tasks, deliveries, notifications, parse, hmac, secret, eventName, deliveryId,
                         signature, payload, newId, now, saveFault);
    var d := NewDelivery(newId, deliveryId, eventName, None, now).value;
    RecordsOneEntry(projects, tasks, deliveries, notifications, parse, hmac, secret, eventName, deliveryId,
                    signature, payload, newId, now, saveFault);
    assert e.deliveries == deliveries + [d];
    assert Keys(e.deliveries, DeliveryKey)[|deliveries|] == Trim(deliveryId);
    var again := ProcessPlan(projects, e.tasks, e.deliveries, e.notifications, parse, hmac, secret, eventName,
                             deliveryId, signature, payload, newId2, now2, saveFault2);
    if !Recorded(e.deliveries, deliveryId) && again.deliveries != e.deliveries {
      RecordsOneEntry(projects, e.tasks, e.deliveries, e.notifications, parse, hmac, secret, eventName, deliveryId,
                      signature, payload, newId2, now2, saveFault2);
      assert false;
    }
  }

  /** When the ledger grows, the delivery passed every check and its entry,
      with the trimmed id, was the one appended, after a clean save. */
  lemma RecordsOneEntry(projects: seq<ProjectRow>, tasks: seq<TaskRow>, deliveries: seq<DeliveryRow>,
                        notifications: seq<TaskUpdatedEvent>, parse: PayloadParser, hmac: Hmac, secret: string,
                        eventName: string, deliveryId: string, signature: string, payload: string,
                        newId: Guid, now: Instant, saveFault: Option<Error>)
    requires NoDuplicates(Keys(tasks, TaskId))
    requires NoDuplicates(Keys(deliveries, DeliveryRowId)) && NoDuplicates(Keys(deliveries, DeliveryKey))
    requires
      var e := ProcessPlan(projects, tasks, deliveries, notifications, parse, hmac, secret, eventName, deliveryId,
                           signature, payload, newId, now, saveFault);
      e.deliveries != deliveries
    ensures
      var e := ProcessPlan(projects, tasks, deliveries, notifications, parse, hmac, secret, eventName, deliveryId,
                           signature, payload, newId, now, saveFault);
      && e.result == Ok(())
      && EqualsIgnoreCase(eventName, "issues") && !Recorded(deliveries, deliveryId)
      && Validate(hmac, secret, payload, signature).Ok?
      && parse(payload).Ok? && IssueKeyOf(parse(payload).value).Ok?
      && NewDelivery(newId, deliveryId, eventName, None, now).Ok?
      && var d := NewDelivery(newId, deliveryId, eventName, None, now).value;
      && d.deliveryId == Trim(deliveryId) && d.deliveryId !in Keys(deliveries, DeliveryKey)
      && e.deliveries == deliveries + [d]
  {
    var e := ProcessPlan(projects, tasks, deliveries, notifications, parse, hmac, secret, eventName, deliveryId,
                         signature, payload, newId, now, saveFault);
    assert EqualsIgnoreCase(eventName, "issues");
    assert Validate(hmac, secret, payload, signature).Ok?;
    assert !Recorded(deliveries, deliveryId);
    assert parse(payload).Ok? && IssueKeyOf(parse(payload).value).Ok?;
    var p := parse(payload).value.value;
    var key := IssueKeyOf(parse(payload).value).value;
    assert TaskStep(projects, tasks, p, key, now).Ok?;
    var applied := TaskStep(projects, tasks, p, key, now).value;
    ProcessReachesRecord(projects, tasks, deliveries, notifications, parse, hmac, secret, eventName, deliveryId,
                         signature, payload, newId, now, saveFault, p, key);
    RecordPlanGrows(tasks, deliveries, notifications, applied, eventName, deliveryId, newId, now, saveFault);
  }

  /** The ledger grows only through a successful save of the new entry. */
  lemma RecordPlanGrows(tasks: seq<TaskRow>, deliveries: seq<DeliveryRow>, notifications: seq<TaskUpdatedEvent>,
                        applied: Option<Applied>, eventName: string, deliveryId: string, newId: Guid, now: Instant,
                        saveFault: Option<Error>)
    requires applied.Some? ==> applied.value.index < |tasks| && applied.value.row.id == tasks[applied.value.index].id
    requires NoDuplicates(Keys(tasks, TaskId))
    requires NoDuplicates(Keys(deliveries, DeliveryRowId)) && NoDuplicates(Keys(deliveries, DeliveryKey))
    requires RecordPlan(tasks, deliveries, notifications, applied, eventName, deliveryId, newId, now, saveFault)
               .deliveries != deliveries
    ensures
      var e := RecordPlan(tasks, deliveries, notifications, applied, eventName, deliveryId, newId, now, saveFault);
      && e.result == Ok(())
      && NewDelivery(newId, deliveryId, eventName, None, now).Ok?
      && var d := NewDelivery(newId, deliveryId, eventName, None, now).value;
      && d.deliveryId == Trim(deliveryId) && d.deliveryId !in Keys(deliveries, DeliveryKey)
      && e.deliveries == deliveries + [d]
  {
  }

  /** A redelivery whose id header carries no surrounding white space finds
      its own ledger entry and is a no-op. */
  lemma TrimmedRedeliveryIgnored(projects: seq<ProjectRow>, tasks: seq<TaskRow>, deliveries: seq<DeliveryRow>,
                                 notifications: seq<TaskUpdatedEvent>, parse: PayloadParser, hmac: Hmac,
                                 secret: string, eventName: string, deliveryId: string, signature: string,
                                 payload: string, newId: Guid, now: Instant, saveFault: Option<Error>,
                                 newId2: Guid, now2: Instant, saveFault2: Option<Error>)
    requires NoDuplicates(Keys(tasks, TaskId))
    requires NoDuplicates(Keys(deliveries, DeliveryRowId)) && NoDuplicates(Keys(deliveries, DeliveryKey))
    requires Trim(deliveryId) == deliveryId
    requires
      var e := ProcessPlan(projects, tasks, deliveries, notifications, parse, hmac, secret, eventName, deliveryId,
                           signature, payload, newId, now, saveFault);
      e.deliveries != deliveries
    ensures
      var e := ProcessPlan(projects, tasks, deliveries, notifications, parse, hmac, secret, eventName, deliveryId,
                           signature, payload, newId, now, saveFault);
      ProcessPlan(projects, e.tasks, e.deliveries, e.notifications, parse, hmac, secret, eventName,
                  deliveryId, signature, payload, newId2, now2, saveFault2)
        == Outcome(Ok(()), e.tasks, e.deliveries, e.notifications)
  {
    var e := ProcessPlan(projects, tasks, deliveries, notifications, parse, hmac, secret, eventName, deliveryId,
                         signature, payload, newId, now, saveFault);
    RecordsOneEntry(projects, tasks, deliveries, notifications, parse, hmac, secret, eventName, deliveryId,
                    signature, payload, newId, now, saveFault);
    assert Keys(e.deliveries, DeliveryKey)[|deliveries|] == deliveryId;
    assert Recorded(e.deliveries, deliveryId);
  }

  /** A redelivery whose id header is padded with white space does not find
      its own (trimmed) ledger entry: it passes the duplicate check, goes
      through the payload again and fails at the save on the unique delivery
      id, leaving everything as the first processing left it. */
  lemma PaddedRedeliveryFails(projects: seq<ProjectRow>, tasks: seq<TaskRow>, deliveries: seq<DeliveryRow>,
                              notifications: seq<TaskUpdatedEvent>, parse: PayloadParser, hmac: Hmac,
                              secret: string, eventName: string, deliveryId: string, signature: string,
                              payload: string, newId: Guid, now: Instant, saveFault: Option<Error>,
                              newId2: Guid, now2: Instant, saveFault2: Option<Error>)
    requires NoDuplicates(Keys(tasks, TaskId))
    requires NoDuplicates(Keys(deliveries, DeliveryRowId)) && NoDuplicates(Keys(deliveries, DeliveryKey))
    requires Trim(deliveryId) != deliveryId
    requires
      var e := ProcessPlan(projects, tasks, deliveries, notifications, parse, hmac, secret, eventName, deliveryId,
                           signature, payload, newId, now, saveFault);
      e.deliveries != deliveries
    ensures
      var e := ProcessPlan(projects, tasks, deliveries, notifications, parse, hmac, secret, eventName, deliveryId,
                           signature, payload, newId, now, saveFault);
      var again := ProcessPlan(projects, e.tasks, e.deliveries, e.notifications, parse, hmac, secret, eventName,
                               deliveryId, signature, payload, newId2, now2, saveFault2);
      && !Recorded(e.deliveries, deliveryId)
      && again.result.Fail?
      && again.tasks == e.tasks && again.deliveries == e.deliveries && again.notifications == e.notifications
  {
    var e := ProcessPlan(projects, tasks, deliveries, notifications, parse, hmac, secret, eventName, deliveryId,
                         signature, payload, newId, now, saveFault);
    RecordsTrimmedId(projects, tasks, deliveries, notifications, parse, hmac, secret, eventName, deliveryId,
                     signature, payload, newId, now, saveFault);
    DuplicateIdRefusedAtSave(projects, e.tasks, e.deliveries, e.notifications, parse, hmac, secret, eventName,
                             deliveryId, signature, payload, newId2, now2, saveFault2);
  }

  /** After a delivery was recorded, its trimmed id is in the ledger, its id
      as received is there only if it had nothing to trim, and it passes
      every check before the ledger lookup again. */
  lemma RecordsTrimmedId(projects: seq<ProjectRow>, tasks: seq<TaskRow>, deliveries: seq<DeliveryRow>,
                         notifications: seq<TaskUpdatedEvent>, parse: PayloadParser, hmac: Hmac, secret: string,
                         eventName: string, deliveryId: string, signature: string, payload: string,
                         newId: Guid, now: Instant, saveFault: Option<Error>)
    requires NoDuplicates(Keys(tasks, TaskId))
    requires NoDuplicates(Keys(deliveries, DeliveryRowId)) && NoDuplicates(Keys(deliveries, DeliveryKey))
    requires
      var e := ProcessPlan(projects, tasks, deliveries, notifications, parse, hmac, secret, eventName, deliveryId,
                           signature, payload, newId, now, saveFault);
      e.deliveries != deliveries
    ensures
      var e := ProcessPlan(projects, tasks, deliveries, notifications, parse, hmac, secret, eventName, deliveryId,
                           signature, payload, newId, now, saveFault);
      && Trim(deliveryId) in Keys(e.deliveries, DeliveryKey)
      && (Recorded(e.deliveries, deliveryId) <==> Trim(deliveryId) == deliveryId)
      && EqualsIgnoreCase(eventName, "issues") && Validate(hmac, secret, payload, signature).Ok?
      && parse(payload).Ok? && IssueKeyOf(parse(payload).value).Ok?
      && !IsBlank(deliveryId) && |Trim(deliveryId)| <= MaxDeliveryIdLength
      && !IsBlank(eventName) && |Trim(eventName)| <= MaxEventNameLength
  {
    var e := ProcessPlan(projects, tasks, deliveries, notifications, parse, hmac, secret, eventName, deliveryId,
                         signature, payload, newId, now, saveFault);
    RecordsOneEntry(projects, tasks, deliveries, notifications, parse, hmac, secret, eventName, deliveryId,
                    signature, payload, newId, now, saveFault);
    var d := NewDelivery(newId, deliveryId, eventName, None, now).value;
    LedgerAfterAppend(deliveries, d, deliveryId);
    NewDeliveryAccepts(newId, deliveryId, eventName, None, now);
  }

  /** Appending the entry of a delivery not yet recorded as received puts its
      trimmed id in the ledger, and its id as received only if the two agree. */
  lemma LedgerAfterAppend(deliveries: seq<DeliveryRow>, d: DeliveryRow, deliveryId: string)
    requires !Recorded(deliveries, deliveryId) && d.deliveryId == Trim(deliveryId)
    ensures Trim(deliveryId) in Keys(deliveries + [d], DeliveryKey)
    ensures Recorded(deliveries + [d], deliveryId) <==> Trim(deliveryId) == deliveryId
  {
    KeysAppend(deliveries, DeliveryKey, d);
    var ks := Keys(deliveries + [d], DeliveryKey);
    assert ks == Keys(deliveries, DeliveryKey) + [Trim(deliveryId)];
    assert deliveryId in ks <==> deliveryId == Trim(deliveryId);
  }

  /** A delivery whose id is not in the ledger as received, but whose trimmed
      id is, passes the duplicate check and then fails: at the save on the
      unique delivery id if it gets that far. */
  lemma DuplicateIdRefusedAtSave(projects: seq<ProjectRow>, tasks: seq<TaskRow>, deliveries: seq<DeliveryRow>,
                                 notifications: seq<TaskUpdatedEvent>, parse: PayloadParser, hmac: Hmac,
                                 secret: string, eventName: string, deliveryId: string, signature: string,
                                 payload: string, newId: Guid, now: Instant, saveFault: Option<Error>)
    requires NoDuplicates(Keys(tasks, TaskId))
    requires NoDuplicates(Keys(deliveries, DeliveryRowId)) && NoDuplicates(Keys(deliveries, DeliveryKey))
    requires EqualsIgnoreCase(eventName, "issues") && Validate(hmac, secret, payload, signature).Ok?
    requires parse(payload).Ok? && IssueKeyOf(parse(payload).value).Ok?
    requires !IsBlank(deliveryId) && |Trim(deliveryId)| <= MaxDeliveryIdLength
    requires !IsBlank(eventName) && |Trim(eventName)| <= MaxEventNameLength
    requires !Recorded(deliveries, deliveryId) && Trim(deliveryId) in Keys(deliveries, DeliveryKey)
    ensures
      var e := ProcessPlan(projects, tasks, deliveries, notifications, parse, hmac, secret, eventName, deliveryId,
                           signature, payload, newId, now, saveFault);
      e.result.Fail? && e.tasks == tasks && e.deliveries == deliveries && e.notifications == notifications
  {
    var p := parse(payload).value.value;
    var key := IssueKeyOf(parse(payload).value).value;
    var step := TaskStep(projects, tasks, p, key, now);
    if step.Ok? {
      NewDeliveryAccepts(newId, deliveryId, eventName, None, now);
      ProcessReachesRecord(projects, tasks, deliveries, notifications, parse, hmac, secret, eventName,
                           deliveryId, signature, payload, newId, now, saveFault, p, key);
      var d := NewDelivery(newId, deliveryId, eventName, None, now).value;
      assert RecordPlan(tasks, deliveries, notifications, step.value, eventName, deliveryId, newId, now, saveFault)
          == SaveDelivery(tasks, deliveries, notifications, step.value, d, saveFault);
    }
  }

  class WebhookService {
    const db: ApplicationDb
    /** `GitHub:WebhookSecret`, as the signature validator reads it. */
    const secret: string
    const hmac: Hmac
    const parse: PayloadParser
    /** Every event sent through `ITaskRealtimeNotifier`, oldest first. */
    var notifications: seq<TaskUpdatedEvent>

    constructor (db: ApplicationDb, secret: string, hmac: Hmac, parse: PayloadParser)
      ensures this.db == db && this.secret == secret && this.hmac == hmac && this.parse == parse
      ensures notifications == []
    {
      this.db := db;
      this.secret := secret;
      this.hmac := hmac;
      this.parse := parse;
      notifications := [];
    }

    method ProcessAsync(eventName: string, deliveryId: string, signature: string, payload: string,
                        newId: Guid, now: Instant, saveFault: Option<Error>) returns (r: Result<()>)
      requires db.Valid()
      modifies db`tasks, db`deliveries, this`notifications
      ensures db.Valid()
      ensures
        var e := ProcessPlan(old(db.projects), old(db.tasks), old(db.deliveries), old(notifications), parse, hmac,
                             secret, eventName, deliveryId, signature, payload, newId, now, saveFault);
        r == e.result && db.tasks == e.tasks && db.deliveries == e.deliveries && notifications == e.notifications
    {
      if !EqualsIgnoreCase(eventName, "issues") {
        return Ok(());
      }
      var valid := Validate(hmac, secret, payload, signature);
      if valid.Fail? {
        return Fail(valid.error);
      }
      if Recorded(db.deliveries, deliveryId) {
        return Ok(());
      }
      var parsed := parse(payload);
      if parsed.Fail? {
        return Fail(parsed.error);
      }
      var key := IssueKeyOf(parsed.value);
      if key.Fail? {
        return Fail(key.error);
      }
      var applied := TaskStep(db.projects, db.tasks, parsed.value.value, key.value, now);
      if applied.Fail? {
        return Fail(applied.error);
      }
      r := RecordDelivery(applied.value, eventName, deliveryId, newId, now, saveFault);
    }

    /** The ledger write and save of `ProcessAsync`: record the delivery, save, write the task, announce. */
    method RecordDelivery(applied: Option<Applied>, eventName: string, deliveryId: string,
                          newId: Guid, now: Instant, saveFault: Option<Error>) returns (r: Result<()>)
      requires db.Valid()
      requires applied.Some? ==>
        applied.value.index < |db.tasks| && applied.value.row.id == db.tasks[applied.value.index].id
      modifies db`tasks, db`deliveries, this`notifications
      ensures db.Valid()
      ensures
        var e := RecordPlan(old(db.tasks), old(db.deliveries), old(notifications), applied,
                            eventName, deliveryId, newId, now, saveFault);
        r == e.result && db.tasks == e.tasks && db.deliveries == e.deliveries && notifications == e.notifications
    {
      var delivery := NewDelivery(newId, deliveryId, eventName, None, now);
      if delivery.Fail? {
        return Fail(delivery.error);
      }
      var d := delivery.value;
      var fault := SaveFault(saveFault, d.id in Keys(db.deliveries, DeliveryRowId)
                                        || d.deliveryId in Keys(db.deliveries, DeliveryKey));
      if fault.Some? {
        return Fail(fault.value);
      }
      r := Store(applied, d);
    }

    /** The ledger write and save once the save went through: append the entry, write the task, announce. */
    method Store(applied: Option<Applied>, d: DeliveryRow) returns (r: Result<()>)
      requires db.Valid()
      requires applied.Some? ==>
        applied.value.index < |db.tasks| && applied.value.row.id == db.tasks[applied.value.index].id
      requires d.id !in Keys(db.deliveries, DeliveryRowId) && d.deliveryId !in Keys(db.deliveries, DeliveryKey)
      modifies db`tasks, db`deliveries, this`notifications
      ensures db.Valid()
      ensures
        var e := StoreDelivery(old(db.tasks), old(db.deliveries), old(notifications), applied, d);
        r == e.result && db.tasks == e.tasks && db.deliveries == e.deliveries && notifications == e.notifications
    {
      AppendFresh(db.deliveries, DeliveryRowId, d);
      AppendFresh(db.deliveries, DeliveryKey, d);
      db.deliveries := db.deliveries + [d];
      if applied.None? {
        return Ok(());
      }
      var a := applied.value;
      ReplaceKeepingKey(db.tasks, TaskId, a.index, a.row);
      db.tasks := db.tasks[a.index := a.row];
      if a.changed {
        notifications := notifications + [UpdatedEvent(a.row)];
      }
      return Ok(());
    }
  }
}
