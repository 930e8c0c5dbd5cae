/** The application database: one table of rows per entity, with the primary
    keys and unique indexes the entity configurations declare. */
module Persistence {
  import opened Common
  import opened Tables
  import opened Tasks
  import opened Projects
  import opened Users
  import opened WebhookDeliveries

  function TaskId(t: TaskRow): Guid { t.id }
  function ProjectId(p: ProjectRow): Guid { p.id }
  function DeliveryRowId(d: DeliveryRow): Guid { d.id }
  function DeliveryKey(d: DeliveryRow): string { d.deliveryId }
  function UserId(u: UserRow): Guid { u.id }
  function UserEmail(u: UserRow): string { u.email }
  function TokenId(t: TokenRow): Guid { t.id }
  function TokenHashKey(t: TokenRow): string { t.tokenHash }

  /** `FirstOrDefault(p => p.Id == id)` on the Projects table. */
  function FindProject(projects: seq<ProjectRow>, id: Guid): (r: Option<ProjectRow>)
    ensures r.None? <==> forall p :: p in projects ==> p.id != id
    ensures r.Some? ==> r.value in projects && r.value.id == id
  {
    match IndexOf(Keys(projects, ProjectId), id)
    case None => None
    case Some(i) => Some(projects[i])
  }

  /** `FirstOrDefault(u => u.Id == id)` on the Users table. */
  function FindUser(users: seq<UserRow>, id: Guid): (r: Option<UserRow>)
    ensures r.None? <==> forall u :: u in users ==> u.id != id
    ensures r.Some? ==> r.value in users && r.value.id == id
  {
    match IndexOf(Keys(users, UserId), id)
    case None => None
    case Some(i) => Some(users[i])
  }

  /** A save that fails for a reason outside the model, or because the new row
      repeats a primary key. */
  function SaveFault(fault: Option<Error>, duplicateKey: bool): Option<Error> {
    if fault.Some? then fault
    else if duplicateKey then Some(Unexpected("Cannot insert duplicate key."))
    else None
  }

  class ApplicationDb {
    var projects: seq<ProjectRow>
    var tasks: seq<TaskRow>
    var deliveries: seq<DeliveryRow>
    var users: seq<UserRow>
    var refreshTokens: seq<TokenRow>

    /** The primary keys and the unique indexes on `DeliveryId`, `Email` and `TokenHash`. */
    predicate Valid()
      reads this
    {
      && NoDuplicates(Keys(projects, ProjectId))
      && NoDuplicates(Keys(tasks, TaskId))
      && NoDuplicates(Keys(deliveries, DeliveryRowId))
      && NoDuplicates(Keys(deliveries, DeliveryKey))
      && NoDuplicates(Keys(users, UserId))
      && NoDuplicates(Keys(users, UserEmail))
      && NoDuplicates(Keys(refreshTokens, TokenId))
      && NoDuplicates(Keys(refreshTokens, TokenHashKey))
    }

    constructor (projects: seq<ProjectRow>, tasks: seq<TaskRow>, deliveries: seq<DeliveryRow>,
                 users: seq<UserRow>, refreshTokens: seq<TokenRow>)
      ensures this.projects == projects && this.tasks == tasks && this.deliveries == deliveries
      ensures this.users == users && this.refreshTokens == refreshTokens
    {
      this.projects := projects;
      this.tasks := tasks;
      this.deliveries := deliveries;
      this.users := users;
      this.refreshTokens := refreshTokens;
    }
  }
}
