/** The front end's view of the API: the records the kanban board receives
    and keeps, and the loosely typed values a realtime message arrives as. */
module KanbanModels {
  import opened Common
  import Tasks

  /** `TaskStatus`: the front end uses the back end's three status names. */
  type TaskStatus = Tasks.Status

  datatype ProjectDto = ProjectDto(id: string, name: string, repoOwner: string, repoName: string, createdAt: string)

  datatype TaskDto = TaskDto(
    id: string,
    projectId: string,
    title: string,
    status: TaskStatus,
    gitHubIssueNumber: Option<int>,
    createdAt: string,
    completedAt: Option<string>)

  datatype IssueLabel = IssueLabel(name: string, color: Option<string>)

  /** The issue fields the board reads; the author, assignees, dates and links are carried by the API but not used here. */
  datatype IssueDetails = IssueDetails(
    taskId: string,
    issueNumber: int,
    title: string,
    description: Option<string>,
    state: string,
    labels: seq<IssueLabel>,
    commentsCount: int)

  datatype IssueComment = IssueComment(id: int, body: string)

  datatype TaskUpdatedEvent = TaskUpdatedEvent(
    taskId: string,
    projectId: string,
    status: TaskStatus,
    completedAt: Option<string>,
    updatedFrom: string)

  /** A value of unknown shape, as a realtime message hands it to its handler. */
  datatype Json =
    | JNull
    | JBool(b: bool)
    | JNumber(n: int)
    | JString(s: string)
    | JArray(items: seq<Json>)
    | JObject(fields: map<string, Json>)

  /** JavaScript truthiness (`!!value`); `NaN` is not modelled. */
  predicate Truthy(v: Json) {
    match v
    case JNull => false
    case JBool(b) => b
    case JNumber(n) => n != 0
    case JString(s) => s != []
    case JArray(_) => true
    case JObject(_) => true
  }

  /** `typeof value[key] === 'string' ? value[key] : null` on a record. */
  function StringField(fields: map<string, Json>, key: string): (r: Option<string>)
    ensures r.Some? <==> key in fields && fields[key].JString?
    ensures r.Some? ==> fields[key] == JString(r.value)
  {
    if key in fields && fields[key].JString? then Some(fields[key].s) else None
  }

  /** `!!s` on a string that may be null. */
  predicate Present(s: Option<string>) {
    s.Some? && s.value != []
  }
}
