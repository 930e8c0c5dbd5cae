# DevBoard in Dafny

DevBoard is a kanban board whose tasks are mirrored as GitHub issues. Its back
end is ASP.NET and its front end is Angular with an NgRx store. This project
models the core of both halves in Dafny and proves properties of the model.

**Back end**
- **Entities.** `Task` has a three-state status machine: a conditional local
  move, an unconditional move from GitHub, and the completion-time rule.
  `Project`, `AppUser` and `RefreshToken` share one required/trim/max-length
  field rule. The `WebhookDelivery` ledger entry is a value.
- **`TaskService`.** It creates the GitHub issue first and the task second,
  and closes the issue again if the save fails. A status change closes or
  reopens the issue before the local move. The issue reads look up the task's
  repository.
- **`GitHubWebhookService`.** The steps run in order: event filter, signature
  check, duplicate-delivery ledger, payload checks, task lookup by issue and
  repository, action, ledger entry, notification.
- **`GitHubSignatureValidator`.** UTF-8 encoding, lower-case hex and the
  fixed-time comparison are modelled concretely.
- **`AuthService`.** E-mail normalisation, registration, login, refresh-token
  rotation and revocation.
- **Request validators, the model-state reply and the error middleware.** A
  refused request never reaches a controller: its failures go into the model
  state, and the `InvalidModelStateResponseFactory` answers 400 with them. The
  middleware maps each exception kind to a status code and a message.

**Front end**
- The reducer, with optimistic moves and their rollback.
- The status selectors.
- The effects' selection, cache and guard rules.
- The kanban page's event parser and per-task caches.
- The task card's label overflow.
- The session store.

**How state is modelled**
- Classes whose methods update fields in place become Dafny `class`es: the
  entities, the services over in-memory tables, the HTTP response, the kanban
  page and the session store. Each such method is proved equal to a pure
  function of the old state, and the properties are proved about those
  functions.
- Pure code becomes functions over datatypes: validators, the reducer,
  selectors, the event parser and the signature check.

**External parts become parameters**
- The GitHub client is a class that logs every request and answers from
  scripted replies.
- HMAC-SHA256, SHA-256, password hashing and the token protector are function
  parameters.
- The JSON payload parser is a function parameter.
- A failing `SaveChangesAsync` is an `Option<Error>` parameter. The unique
  indexes fail it too.
- The clock is an `Instant` (front end: an ISO string) parameter.
- API answers on the front end are `ApiOutcome` values.
- Local storage is a `LocalStore` value.

**Behaviour reproduced as the code has it**
- `Project.UpdateRepository` is not atomic: `Projects.RepositoryUpdated`
  keeps the new owner when only the name is invalid.
- `SetGitHubIssueNumber` has no set-once check.
- `ApplyGitHubStatus` rewrites an unchanged status and refreshes the
  completion time.
- The request validators check raw lengths; the entities check trimmed ones.
- Login accepts a 7-character password that registration refuses.
- `CreateAsync` validates the title only after the issue was created. An
  invalid title therefore leaves an open issue behind
  (`TaskServices.CreateLeavesIssueOpen`).
- In the service method `ProcessAsync` the ledger stores the trimmed delivery
  id, but the duplicate check compares the id it was given, ordinally. Called
  with a delivery id padded with white space, the method does not recognise a
  recorded delivery and fails at the save on the unique index instead of
  ignoring it (`Webhooks.PaddedRedeliveryFails`); an unpadded redelivery is a
  no-op (`Webhooks.TrimmedRedeliveryIgnored`). Whether a padded id can reach
  the method over HTTP depends on two layers outside the model: the server
  strips spaces and tabs around header values, and SQL Server's string
  equality ignores trailing spaces. Both are listed under "Left out".

## Model

| member | source | states |
|---|---|---|
| `Required.ValidateRequired` | backend/src/DevBoard.Domain/Entities/Project.cs:56-70 | accepted iff not blank and the trimmed value fits the limit; the result is the trimmed value; blank gives "{field} is required.", too long gives "{field} must be {max} characters or fewer." |
| `Text.NatToString` | backend/src/DevBoard.Domain/Entities/Project.cs:66 | the interpolated number is a non-empty string of decimal digits |
| `Text.NatToStringValue` | backend/src/DevBoard.Domain/Entities/Project.cs:66 | read back as a decimal number, the interpolated digits give the number itself |
| `Required.StoredFormRevalidates` | backend/src/DevBoard.Domain/Entities/AppUser.cs:49-63 | a value already non-blank, trimmed and within the limit passes unchanged |
| `Text.Trim` | backend/src/DevBoard.Domain/Entities/Task.cs:115 | `Trim()` is no longer than its input, starts and ends with a non-white-space character, and is empty iff the input is blank |
| `Text.TrimIsInfix` | backend/src/DevBoard.Domain/Entities/Task.cs:115 | `Trim()` is the slice right after the leading white space, with only white space before and after it |
| `Text.TrimIsLongest` | backend/src/DevBoard.Domain/Entities/Task.cs:115 | every slice that starts and ends with a non-white-space character lies within the trimmed part, so `Trim()` is the longest such infix |
| `Text.TrimIdempotent` | backend/src/DevBoard.Domain/Entities/Task.cs:115 | trimming twice equals trimming once |
| `Text.ToLowerIdempotent` | backend/src/DevBoard.Domain/Entities/AppUser.cs:27 | lower-casing twice equals lower-casing once |
| `Tasks.ValidateTitle` | backend/src/DevBoard.Domain/Entities/Task.cs:108-122 | accepted iff not blank and at most 250 characters after trimming; the stored title is the trimmed one; a blank title fails with "title is required.", a too-long one with "title must be 250 characters or fewer." |
| `Tasks.NewTask` | backend/src/DevBoard.Domain/Entities/Task.cs:23-35 | the empty project id fails with "projectId is required."; otherwise ok iff the title is valid, and a refused title throws the title rule's message (`FieldError`: "{field} is required." for a blank value, "{field} must be {max} characters or fewer." for a too-long one); the new task is Todo, has no completion time and no issue number, and takes the given creation time or the clock |
| `Tasks.Moved` | backend/src/DevBoard.Domain/Entities/Task.cs:62-88 | moving to the current status changes nothing; a Done task may go only to InProgress; nothing moves to Todo; entering Done records the given time or the clock, leaving Done clears it; only status and completion time change; well-formedness is kept |
| `Tasks.GitHubStatusApplied` | backend/src/DevBoard.Domain/Entities/Task.cs:90-106 | Todo is refused; any other status is written even when unchanged, with the completion time set exactly for Done |
| `Tasks.TitleUpdated` | backend/src/DevBoard.Domain/Entities/Task.cs:37-45 | refused on a Done task with "Done tasks cannot be edited."; otherwise only the title changes, to the trimmed title |
| `Tasks.TitleSynced` | backend/src/DevBoard.Domain/Entities/Task.cs:47-50 | the trimmed title is taken whatever the status |
| `Tasks.IssueNumberSet` | backend/src/DevBoard.Domain/Entities/Task.cs:52-60 | refused iff the number is not positive; otherwise it overwrites any earlier number |
| `Tasks.RunPreservesWellFormed` | backend/src/DevBoard.Domain/Entities/Task.cs:62-106 | any sequence of entity calls, failing or not, keeps a task well formed: Done iff it has a completion time, trimmed title, positive issue number |
| `Tasks.Task.Create` | backend/src/DevBoard.Domain/Entities/Task.cs:23-35 | the constructor builds exactly the `NewTask` row or throws its error |
| `Tasks.Task.MoveTo` | backend/src/DevBoard.Domain/Entities/Task.cs:62-88 | the fields become the `Moved` row; on failure nothing changes |
| `Tasks.Task.ApplyGitHubStatus` | backend/src/DevBoard.Domain/Entities/Task.cs:90-106 | the fields become the `GitHubStatusApplied` row; on failure nothing changes |
| `Tasks.Task.UpdateTitle` | backend/src/DevBoard.Domain/Entities/Task.cs:37-45 | the fields become the `TitleUpdated` row; on failure nothing changes |
| `Tasks.Task.SyncTitleFromGitHub` | backend/src/DevBoard.Domain/Entities/Task.cs:47-50 | the fields become the `TitleSynced` row; on failure nothing changes |
| `Tasks.Task.SetGitHubIssueNumber` | backend/src/DevBoard.Domain/Entities/Task.cs:52-60 | the fields become the `IssueNumberSet` row; on failure nothing changes |
| `Projects.NewProject` | backend/src/DevBoard.Domain/Entities/Project.cs:25-38 | ok iff name (150), owner (100), repository (100) and token (4000) all pass the field rule; the first refused field, in that order, throws its own message (`FieldError`: "{field} is required." for a blank value, "{field} must be {max} characters or fewer." for a too-long one); the stored values are trimmed and the creation time is the given one or the clock |
| `Projects.NameUpdated` | backend/src/DevBoard.Domain/Entities/Project.cs:40-43 | only the name changes, to the trimmed value; refused names change nothing |
| `Projects.TokenRotated` | backend/src/DevBoard.Domain/Entities/Project.cs:51-54 | only the token changes, to the trimmed value; refused tokens change nothing |
| `Projects.RepositoryUpdated` | backend/src/DevBoard.Domain/Entities/Project.cs:45-49 | both fields change when both are valid; an invalid owner changes nothing; a valid owner with an invalid name leaves the new owner in place and fails |
| `Projects.Project.Create` | backend/src/DevBoard.Domain/Entities/Project.cs:25-38 | the constructor builds exactly the `NewProject` row or throws its error |
| `Projects.Project.UpdateName` | backend/src/DevBoard.Domain/Entities/Project.cs:40-43 | the fields become the `NameUpdated` row; on failure nothing changes |
| `Projects.Project.UpdateRepository` | backend/src/DevBoard.Domain/Entities/Project.cs:45-49 | the fields and the outcome are those of `RepositoryUpdated` |
| `Projects.Project.RotateGitHubToken` | backend/src/DevBoard.Domain/Entities/Project.cs:51-54 | the fields become the `TokenRotated` row; on failure nothing changes |
| `Users.NewUser` | backend/src/DevBoard.Domain/Entities/AppUser.cs:24-32 | ok iff e-mail (200), password hash (500) and role (50) pass the field rule; the first refused field, in that order, throws its own message (`FieldError`: "{field} is required." for a blank value, "{field} must be {max} characters or fewer." for a too-long one); the e-mail is stored trimmed and lower-cased, the user is active |
| `Users.ToLowerKeepsStoredForm` | backend/src/DevBoard.Domain/Entities/AppUser.cs:27 | lower-casing a validated e-mail keeps it non-blank, trimmed and within the limit |
| `Users.PasswordHashUpdated` | backend/src/DevBoard.Domain/Entities/AppUser.cs:34-37 | only the hash changes, to the trimmed value; a refused hash changes nothing |
| `Users.AppUser.Create` | backend/src/DevBoard.Domain/Entities/AppUser.cs:24-32 | the constructor builds exactly the `NewUser` row or throws its error |
| `Users.AppUser.UpdatePasswordHash` | backend/src/DevBoard.Domain/Entities/AppUser.cs:34-37 | the fields become the `PasswordHashUpdated` row; on failure nothing changes |
| `Users.AppUser.Deactivate` | backend/src/DevBoard.Domain/Entities/AppUser.cs:39-42 | only `IsActive` changes, to false |
| `Users.AppUser.Activate` | backend/src/DevBoard.Domain/Entities/AppUser.cs:44-47 | only `IsActive` changes, to true |
| `Users.NormalizeIp` | backend/src/DevBoard.Domain/Entities/RefreshToken.cs:34 | the client address is absent iff missing or blank, and trimmed otherwise |
| `Users.NewToken` | backend/src/DevBoard.Domain/Entities/RefreshToken.cs:22-35 | the empty user id fails with "userId is required."; otherwise ok iff the hash passes the field rule (200), and a refused hash throws "tokenHash is required." or "tokenHash must be 200 characters or fewer."; a new token stores the trimmed hash, is not revoked, is created at the clock reading and keeps the normalized client address |
| `Users.Revoked` | backend/src/DevBoard.Domain/Entities/RefreshToken.cs:37-44 | revoking always records the given time or the clock, even over an earlier one; only that field changes; a revoked token is never usable |
| `Users.ExpiryIsMonotone` | backend/src/DevBoard.Domain/Entities/RefreshToken.cs:39 | expiry counts the boundary instant, and an expired token stays expired later |
| `Users.RefreshToken.Create` | backend/src/DevBoard.Domain/Entities/RefreshToken.cs:22-35 | the constructor builds exactly the `NewToken` row or throws its error |
| `Users.RefreshToken.Revoke` | backend/src/DevBoard.Domain/Entities/RefreshToken.cs:41-44 | the fields become the `Revoked` row |
| `WebhookDeliveries.NewDelivery` | backend/src/DevBoard.Domain/Entities/WebhookDelivery.cs:18-24 | ok iff the delivery id (100) and then the event name (50) pass the field rule; the first refused field throws its own message (`FieldError`: "{field} is required." for a blank value, "{field} must be {max} characters or fewer." for a too-long one); an accepted entry stores the trimmed delivery id and event name and the given time or the clock |
| `WebhookDeliveries.NewDeliveryAccepts` | backend/src/DevBoard.Domain/Entities/WebhookDelivery.cs:18-40 | an entry is created iff both fields pass the field rule; a blank id fails with "deliveryId is required.", an id over 100 characters with "deliveryId must be 100 characters or fewer." |
| `Encoding.Utf8Injective` | backend/src/DevBoard.Infrastructure/Webhooks/GitHubSignatureValidator.cs:50-51 | different strings have different UTF-8 encodings |
| `Encoding.DecodeEncodeChar` | backend/src/DevBoard.Infrastructure/Webhooks/GitHubSignatureValidator.cs:40-41 | decoding the UTF-8 bytes of a character gives back its code point |
| `Encoding.FixedTimeEqualsIsEquality` | backend/src/DevBoard.Infrastructure/Webhooks/GitHubSignatureValidator.cs:53 | the fixed-time comparison holds iff the byte strings are equal, length included |
| `Encoding.HexUpper` | backend/src/DevBoard.Infrastructure/Webhooks/GitHubSignatureValidator.cs:45 | `Convert.ToHexString` writes two digits per byte |
| `Encoding.LowerOfHexUpper` | backend/src/DevBoard.Infrastructure/Webhooks/GitHubSignatureValidator.cs:45 | lower-casing the upper-case rendering gives the lower-case rendering |
| `Encoding.ParseHexLowerRoundTrip` | backend/src/DevBoard.Infrastructure/Webhooks/GitHubSignatureValidator.cs:45 | the lower-case rendering can be read back into the same bytes |
| `Encoding.HexLowerInjective` | backend/src/DevBoard.Infrastructure/Webhooks/GitHubSignatureValidator.cs:45 | two digests with the same lower-case rendering are equal |
| `Signatures.ComputeHash` | backend/src/DevBoard.Infrastructure/Webhooks/GitHubSignatureValidator.cs:38-46 | the hash is the lower-case hex of the HMAC of the UTF-8 payload under the UTF-8 secret |
| `Signatures.ConstantTimeEquals` | backend/src/DevBoard.Infrastructure/Webhooks/GitHubSignatureValidator.cs:48-54 | true iff the two strings are equal |
| `Signatures.Validate` | backend/src/DevBoard.Infrastructure/Webhooks/GitHubSignatureValidator.cs:12-36 | accepted iff the secret and header are not blank, the header starts with `sha256=` in any case, and the rest equals the computed hash; a blank secret is a configuration error, every other failure a signature error |
| `Signatures.GitHubSignatureAccepted` | backend/src/DevBoard.Infrastructure/Webhooks/GitHubSignatureValidator.cs:24-35 | a header made of the prefix, in any letter case, and the correct lower-case digest is accepted |
| `Signatures.UpperCaseDigestRejected` | backend/src/DevBoard.Infrastructure/Webhooks/GitHubSignatureValidator.cs:29-35 | the correct digest written in upper case is refused when it has a letter digit |
| `Signatures.AcceptedSignatureDeterminesMac` | backend/src/DevBoard.Infrastructure/Webhooks/GitHubSignatureValidator.cs:29-35 | one header is accepted for two payloads only if their MACs agree |
| `IssueTracker.IssueTrackerClient.CreateIssueAsync` | backend/src/DevBoard.Application/Tasks/Services/IGitHubIssueService.cs:7-13 | the request is logged and answered by the scripted reply for its position |
| `IssueTracker.IssueTrackerClient.CloseIssueAsync` | backend/src/DevBoard.Application/Tasks/Services/IGitHubIssueService.cs:15-20 | the request is logged and answered by the scripted reply for its position |
| `IssueTracker.IssueTrackerClient.ReopenIssueAsync` | backend/src/DevBoard.Application/Tasks/Services/IGitHubIssueService.cs:22-27 | the request is logged and answered by the scripted reply for its position |
| `IssueTracker.IssueTrackerClient.GetIssueDetailsAsync` | backend/src/DevBoard.Application/Tasks/Services/IGitHubIssueService.cs:29-34 | the request is logged and answered by the scripted reply for its position |
| `IssueTracker.IssueTrackerClient.GetIssueCommentsAsync` | backend/src/DevBoard.Application/Tasks/Services/IGitHubIssueService.cs:36-41 | the request is logged and answered by the scripted reply for its position |
| `Persistence.FindProject` | backend/src/DevBoard.Infrastructure/Services/TaskService.cs:20-21 | the lookup finds a project with that id iff one exists |
| `Tables.IndexOf` | backend/src/DevBoard.Infrastructure/Services/TaskService.cs:93-94 | `FirstOrDefault` finds the first row with the key, and none iff no row has it |
| `Tables.IndexOfUnique` | backend/src/DevBoard.Infrastructure/Persistence/Configurations/WebhookDeliveryConfiguration.cs:25-26 | with a unique key the first match is the only match |
| `Tables.AppendFresh` | backend/src/DevBoard.Infrastructure/Persistence/Configurations/WebhookDeliveryConfiguration.cs:25-26 | adding a row with a new key keeps the key unique |
| `TaskServices.ParseStatus` | backend/src/DevBoard.Infrastructure/Services/TaskService.cs:101 | a value parses to a status iff its trimmed form equals that status's name ignoring case |
| `TaskServices.ParseStatusName` | backend/src/DevBoard.Infrastructure/Services/TaskService.cs:101 | every status name parses back to its status |
| `TaskServices.Map` | backend/src/DevBoard.Infrastructure/Services/TaskService.cs:206-207 | the reply copies the task's id, project, title, issue number and times, and names exactly the task's status |
| `TaskServices.MapStatusRoundTrip` | backend/src/DevBoard.Infrastructure/Services/TaskService.cs:206-207 | the status a task is reported with parses back to the task's status |
| `TaskServices.MapInjective` | backend/src/DevBoard.Infrastructure/Services/TaskService.cs:206-207 | distinct tasks are reported differently |
| `TaskServices.InsertByCreatedAt` | backend/src/DevBoard.Infrastructure/Services/TaskService.cs:77 | inserting into a list sorted by creation time keeps it sorted and adds exactly that task |
| `TaskServices.SortByCreatedAt` | backend/src/DevBoard.Infrastructure/Services/TaskService.cs:77 | the result is sorted by creation time and is a permutation of the input |
| `TaskServices.ProjectListing` | backend/src/DevBoard.Infrastructure/Services/TaskService.cs:72-80 | the listing has one entry per task of the project, all of that project, oldest first |
| `TaskServices.ListingComplete` | backend/src/DevBoard.Infrastructure/Services/TaskService.cs:72-80 | every task of the project is listed |
| `TaskServices.RemoteChangeIsLocallyAllowed` | backend/src/DevBoard.Infrastructure/Services/TaskService.cs:108-146 | a move that closes or reopens the issue is always allowed locally afterwards |
| `TaskServices.RefusedMoveStaysLocal` | backend/src/DevBoard.Infrastructure/Services/TaskService.cs:108-146 | a move the task refuses is a move to Todo and never reaches GitHub |
| `TaskServices.CreatePlan` | backend/src/DevBoard.Infrastructure/Services/TaskService.cs:18-70 | task ids stay unique; a failed create leaves the table unchanged; at most two requests are made, appended to the log |
| `TaskServices.SavePlan` | backend/src/DevBoard.Infrastructure/Services/TaskService.cs:41-69 | a failed save stores nothing and appends one close request for the created issue; a successful one stores exactly the new task and makes no request |
| `TaskServices.CreateUnknownProject` | backend/src/DevBoard.Infrastructure/Services/TaskService.cs:20-26 | an unknown project fails with "Project not found." before any request, and nothing is added |
| `TaskServices.CreateStoresTask` | backend/src/DevBoard.Infrastructure/Services/TaskService.cs:28-39 | a successful create made exactly the create request and stored one Todo task carrying the issue number GitHub returned |
| `TaskServices.CreateCompensates` | backend/src/DevBoard.Infrastructure/Services/TaskService.cs:41-67 | when the save fails, exactly one close request for the created issue follows, with the same repository and token; the save's error is the outcome; no task is stored |
| `TaskServices.CreateLeavesIssueOpen` | backend/src/DevBoard.Infrastructure/Services/TaskService.cs:29-38 | when the task cannot be built (a bad title or a non-positive issue number), the create request has gone out, no close follows, the call fails and nothing is stored |
| `TaskServices.RemotePlan` | backend/src/DevBoard.Infrastructure/Services/TaskService.cs:108-144 | a request is sent iff the status changes to Done or from Done to InProgress, and the project and issue number exist; close for Done, reopen otherwise |
| `TaskServices.UpdateStatusPlan` | backend/src/DevBoard.Infrastructure/Services/TaskService.cs:91-150 | ids and well-formedness are kept; without a successful result the table is unchanged |
| `TaskServices.MovePlan` | backend/src/DevBoard.Infrastructure/Services/TaskService.cs:91-150 | a found task is moved in place: same id, and a well-formed task stays well formed |
| `TaskServices.UpdateUnknownTask` | backend/src/DevBoard.Infrastructure/Services/TaskService.cs:96-99 | an unknown task gives no result, sends nothing and changes nothing |
| `TaskServices.UpdateInvalidStatus` | backend/src/DevBoard.Infrastructure/Services/TaskService.cs:101-104 | a status that does not parse fails with "Invalid status value." before any request |
| `TaskServices.UpdateRefusedMove` | backend/src/DevBoard.Infrastructure/Services/TaskService.cs:146 | a move the task refuses fails with its domain error, sends nothing, changes nothing |
| `TaskServices.UpdateWritesMovedTask` | backend/src/DevBoard.Infrastructure/Services/TaskService.cs:146-149 | a successful update writes the moved task over its own row only and returns it |
| `TaskServices.UpdateMirrorsOnGitHub` | backend/src/DevBoard.Infrastructure/Services/TaskService.cs:126-147 | exactly one close (for Done) or reopen is sent with the project's repository, the task's issue number and the token; GitHub's refusal is the outcome and changes no task; a failed save is the outcome and leaves the remote change in place |
| `TaskServices.IssueLookup` | backend/src/DevBoard.Infrastructure/Services/TaskService.cs:152-169 | an unknown task, or one whose project is missing, gives no result; a task without an issue number fails with "Task does not have an associated GitHub issue." |
| `TaskServices.TaskService.CreateAsync` | backend/src/DevBoard.Infrastructure/Services/TaskService.cs:18-70 | the outcome, the Tasks table and the request log are those of `CreatePlan` |
| `TaskServices.TaskService.SaveCreated` | backend/src/DevBoard.Infrastructure/Services/TaskService.cs:41-69 | the outcome, the Tasks table and the request log are those of `SavePlan` |
| `TaskServices.TaskService.GetByProjectIdAsync` | backend/src/DevBoard.Infrastructure/Services/TaskService.cs:72-80 | returns the `ProjectListing` |
| `TaskServices.TaskService.GetByIdAsync` | backend/src/DevBoard.Infrastructure/Services/TaskService.cs:82-89 | none iff no task has the id, otherwise the mapped task with that id |
| `TaskServices.TaskService.UpdateStatusAsync` | backend/src/DevBoard.Infrastructure/Services/TaskService.cs:91-150 | the outcome, the Tasks table and the request log are those of `UpdateStatusPlan` |
| `TaskServices.TaskService.PrepareMove` | backend/src/DevBoard.Infrastructure/Services/TaskService.cs:93-146 | the steps before the save agree with `MovePlan` |
| `TaskServices.TaskService.MirrorOnGitHub` | backend/src/DevBoard.Infrastructure/Services/TaskService.cs:108-144 | the request and its answer agree with `RemotePlan` |
| `TaskServices.TaskService.GetIssueDetailsAsync` | backend/src/DevBoard.Infrastructure/Services/TaskService.cs:152-178 | the lookup's refusal or absence without any request; otherwise one details request for the task's issue, and GitHub's answer with the task id set to the local id |
| `TaskServices.TaskService.GetIssueCommentsAsync` | backend/src/DevBoard.Infrastructure/Services/TaskService.cs:180-204 | the lookup's refusal or absence without any request; otherwise one comments request for the task's issue, and GitHub's answer |
| `Webhooks.IssueKeyOf` | backend/src/DevBoard.Infrastructure/Webhooks/GitHubWebhookService.cs:46-61 | an accepted payload gives a positive issue number and non-empty trimmed owner and repository; every refusal is an invalid-operation error |
| `Webhooks.IssueKeyOfAccepts` | backend/src/DevBoard.Infrastructure/Webhooks/GitHubWebhookService.cs:46-61 | a payload is accepted iff it has issue, repository and owner, owner and name are not blank, and the number is positive; the key holds the trimmed owner and name |
| `Webhooks.IssueKeyOfErrors` | backend/src/DevBoard.Infrastructure/Webhooks/GitHubWebhookService.cs:46-61 | each refusal carries its own message, in the order the checks are made |
| `Webhooks.FindLinkedTask` | backend/src/DevBoard.Infrastructure/Webhooks/GitHubWebhookService.cs:63-69 | the first task with the issue number whose project has the owner and repository, and none iff there is no such task |
| `Webhooks.KindOf` | backend/src/DevBoard.Infrastructure/Webhooks/GitHubWebhookService.cs:107-112 | an action is closed, reopened or edited iff it is present and its trimmed lower-cased form is that word |
| `Webhooks.ApplyWebhookAction` | backend/src/DevBoard.Infrastructure/Webhooks/GitHubWebhookService.cs:105-136 | the task keeps its id and project; a report of no change means an unchanged task; well-formedness is kept |
| `Webhooks.StatusActions` | backend/src/DevBoard.Infrastructure/Webhooks/GitHubWebhookService.cs:114-119 | closed sets Done with the completion time now, reopened sets InProgress with none; both report a change even when the status was already that |
| `Webhooks.EditedAction` | backend/src/DevBoard.Infrastructure/Webhooks/GitHubWebhookService.cs:120-132 | edited takes the trimmed title iff it is present and differs from the current title, and only then reports a change; an overlong title fails as the entity does |
| `Webhooks.OtherActionsIgnored` | backend/src/DevBoard.Infrastructure/Webhooks/GitHubWebhookService.cs:107-110 | a missing, blank or unknown action changes nothing and reports no change |
| `Webhooks.TaskStep` | backend/src/DevBoard.Infrastructure/Webhooks/GitHubWebhookService.cs:63-75 | the action is applied to the linked task, and there is no task iff none is linked |
| `Webhooks.RecordPlan` | backend/src/DevBoard.Infrastructure/Webhooks/GitHubWebhookService.cs:85-102 | keys stay unique; a failed save changes nothing |
| `Webhooks.StoreDelivery` | backend/src/DevBoard.Infrastructure/Webhooks/GitHubWebhookService.cs:85-102 | after a successful save the ledger gains exactly the new entry with keys kept unique; the task is written back, and an event is announced iff it changed |
| `Webhooks.UpdatedEvent` | backend/src/DevBoard.Infrastructure/Webhooks/GitHubWebhookService.cs:95-100 | the event names the task, its project, exactly its status and its completion time, and the webhook as its origin |
| `Webhooks.SaveDelivery` | backend/src/DevBoard.Infrastructure/Webhooks/GitHubWebhookService.cs:85-88 | keys stay unique; a failed save changes nothing; an entry whose trimmed id is already in the ledger is always refused |
| `Webhooks.ProcessPlan` | backend/src/DevBoard.Infrastructure/Webhooks/GitHubWebhookService.cs:23-103 | keys stay unique; a failed delivery changes no task, ledger entry or notification |
| `Webhooks.OtherEventsIgnored` | backend/src/DevBoard.Infrastructure/Webhooks/GitHubWebhookService.cs:30-33 | an event other than issues, in any case, is a no-op before the signature check |
| `Webhooks.RejectedSignatureChangesNothing` | backend/src/DevBoard.Infrastructure/Webhooks/GitHubWebhookService.cs:35 | a refused signature fails with the validator's error and changes nothing |
| `Webhooks.RecordedDeliveryIgnored` | backend/src/DevBoard.Infrastructure/Webhooks/GitHubWebhookService.cs:37-44 | a delivery id already in the ledger is a no-op |
| `Webhooks.AcceptedDelivery` | backend/src/DevBoard.Infrastructure/Webhooks/GitHubWebhookService.cs:63-102 | a new valid delivery appends one ledger entry, writes the changed task, and notifies once, with the task's status, completion time and "webhook", iff a task matched and changed |
| `Webhooks.RecordsOneEntry` | backend/src/DevBoard.Infrastructure/Webhooks/GitHubWebhookService.cs:85-88 | when the ledger grows, it grows by exactly one entry for this delivery |
| `Webhooks.RedeliveryNotRecordedTwice` | backend/src/DevBoard.Infrastructure/Webhooks/GitHubWebhookService.cs:37-44 | processing the same delivery again never adds a second entry |
| `Webhooks.RecordPlanGrows` | backend/src/DevBoard.Infrastructure/Webhooks/GitHubWebhookService.cs:85-88 | the ledger grows only through a successful save of the new entry |
| `Webhooks.TrimmedRedeliveryIgnored` | backend/src/DevBoard.Infrastructure/Webhooks/GitHubWebhookService.cs:37-44 | a recorded delivery whose id has no padding is a no-op when it comes again |
| `Webhooks.PaddedRedeliveryFails` | backend/src/DevBoard.Infrastructure/Webhooks/GitHubWebhookService.cs:37-88 | the ledger holds the trimmed id, so a recorded delivery whose id header is padded is not found; when it comes again it fails at the save on the unique id and changes nothing |
| `Webhooks.RecordsTrimmedId` | backend/src/DevBoard.Infrastructure/Webhooks/GitHubWebhookService.cs:37-44 | after a delivery was recorded its trimmed id is in the ledger, and its id as received is found iff it had nothing to trim |
| `Webhooks.DuplicateIdRefusedAtSave` | backend/src/DevBoard.Infrastructure/Webhooks/GitHubWebhookService.cs:37-88 | a valid delivery whose raw id is not in the ledger but whose trimmed id is fails, and changes nothing |
| `Webhooks.WebhookService.ProcessAsync` | backend/src/DevBoard.Infrastructure/Webhooks/GitHubWebhookService.cs:23-103 | the outcome, Tasks table, ledger and notification log are those of `ProcessPlan` |
| `Webhooks.WebhookService.RecordDelivery` | backend/src/DevBoard.Infrastructure/Webhooks/GitHubWebhookService.cs:85-102 | the ledger, Tasks table and notification log are those of `RecordPlan` |
| `Webhooks.WebhookService.Store` | backend/src/DevBoard.Infrastructure/Webhooks/GitHubWebhookService.cs:86-102 | after a clean save the ledger, Tasks table and notification log are those of `StoreDelivery`, which appends the new entry, writes the linked task back and notifies iff it changed |
| `Auth.MemberRoleIsTrimmed` | backend/src/DevBoard.Infrastructure/Services/AuthService.cs:21 | the default role "Member" passes the role rule unchanged |
| `Auth.NormalizeEmail` | backend/src/DevBoard.Infrastructure/Services/AuthService.cs:129-137 | a blank address fails with "Email is required."; otherwise the result is non-empty, trimmed and lower-case |
| `Auth.NormalizeEmailIdempotent` | backend/src/DevBoard.Infrastructure/Services/AuthService.cs:129-137 | a normalized address normalizes to itself |
| `Auth.SameAccountEmail` | backend/src/DevBoard.Infrastructure/Services/AuthService.cs:129-137 | two addresses normalize alike iff their trimmed forms are equal ignoring case |
| `Auth.HashToken` | backend/src/DevBoard.Infrastructure/Services/AuthService.cs:139-149 | a blank token fails with "Refresh token is required."; any other token gets a digest that is already in stored (trimmed) form |
| `Auth.HashTokenIdentifies` | backend/src/DevBoard.Infrastructure/Services/AuthService.cs:139-149 | with a collision-free digest, two tokens hash alike iff they agree after trimming |
| `Auth.CreateSession` | backend/src/DevBoard.Infrastructure/Services/AuthService.cs:112-127 | the session is the user's, carries the issued tokens, and the refresh token outlives `now` iff the configured days are positive |
| `Auth.IssueToken` | backend/src/DevBoard.Infrastructure/Services/AuthService.cs:112-127 | the stored token row holds the digest of the session's refresh token, its expiry, the current time and the normalized client address |
| `Auth.Commit` | backend/src/DevBoard.Infrastructure/Services/AuthService.cs:40-44 | the save adds exactly the staged rows, or on failure nothing |
| `Auth.RegisterPlan` | backend/src/DevBoard.Infrastructure/Services/AuthService.cs:24-46 | the table keys stay unique; a failed registration changes nothing |
| `Auth.RegisterRefusesTakenEmail` | backend/src/DevBoard.Infrastructure/Services/AuthService.cs:28-35 | an address already registered, in any case or padding, fails with "Email is already registered." |
| `Auth.RegisterCreatesAccount` | backend/src/DevBoard.Infrastructure/Services/AuthService.cs:37-45 | a successful registration used an address not yet taken, and commits one active "Member" account with the normalized address and the hashed password, plus the token issued for its session |
| `Auth.LoginPlan` | backend/src/DevBoard.Infrastructure/Services/AuthService.cs:48-65 | users never change; a failed login adds no token |
| `Auth.LoginRefusalIsUniform` | backend/src/DevBoard.Infrastructure/Services/AuthService.cs:55-58 | an unknown address, an inactive account and a wrong password all fail with "Invalid credentials." |
| `Auth.LoginIssuesToken` | backend/src/DevBoard.Infrastructure/Services/AuthService.cs:60-64 | a successful login is for the one account with that address, which is active and whose password matches; it changes no account and appends one new token for it |
| `Auth.RefreshPlan` | backend/src/DevBoard.Infrastructure/Services/AuthService.cs:67-95 | users never change; a failed refresh changes no token |
| `Auth.RotateStored` | backend/src/DevBoard.Infrastructure/Services/AuthService.cs:84-93 | rotating a stored token keeps both tables valid and the users unchanged; a failed save changes no token |
| `Auth.RefreshRefusesUnusable` | backend/src/DevBoard.Infrastructure/Services/AuthService.cs:74-82 | when no stored token with the presented token's digest is usable (unknown, revoked or expired), the refresh fails with "Invalid refresh token." and changes nothing |
| `Auth.RefreshRefusesInactiveUser` | backend/src/DevBoard.Infrastructure/Services/AuthService.cs:79-82 | a usable token of a deactivated account fails with "User is inactive." and changes nothing |
| `Auth.RefreshRotates` | backend/src/DevBoard.Infrastructure/Services/AuthService.cs:84-93 | a successful refresh used a usable stored token of an active account; it revokes exactly that token at the current time and appends one new token for the same account, and the session is that account's |
| `Auth.RotateStoredRotates` | backend/src/DevBoard.Infrastructure/Services/AuthService.cs:74-94 | once the stored token is found, success means it was usable and its account active; that token is revoked at the current time and one new token, expiring after the configured days, is appended |
| `Auth.RefreshTokenIsSingleUse` | backend/src/DevBoard.Infrastructure/Services/AuthService.cs:74-93 | presenting the same token again after a successful refresh fails |
| `Auth.RevokePlan` | backend/src/DevBoard.Infrastructure/Services/AuthService.cs:97-110 | users and the number of tokens never change; a failure changes nothing |
| `Auth.RevokeChangesOnlyPresented` | backend/src/DevBoard.Infrastructure/Services/AuthService.cs:103-109 | after a successful revocation, exactly the unrevoked tokens with the presented digest are revoked at the current time; every other token is unchanged |
| `Auth.RevokedTokenCannotRefresh` | backend/src/DevBoard.Infrastructure/Services/AuthService.cs:97-110 | after a successful revocation the token cannot refresh |
| `Auth.RegisterKeepsTokensOwned` | backend/src/DevBoard.Infrastructure/Services/AuthService.cs:38-42 | every token belongs to an existing account after registration |
| `Auth.LoginKeepsTokensOwned` | backend/src/DevBoard.Infrastructure/Services/AuthService.cs:60-61 | every token belongs to an existing account after login |
| `Auth.RefreshKeepsTokensOwned` | backend/src/DevBoard.Infrastructure/Services/AuthService.cs:84-91 | every token belongs to an existing account after a refresh |
| `Auth.RevokeKeepsTokensOwned` | backend/src/DevBoard.Infrastructure/Services/AuthService.cs:103-109 | every token belongs to an existing account after a revocation |
| `Auth.AuthService.RegisterAsync` | backend/src/DevBoard.Infrastructure/Services/AuthService.cs:24-46 | the outcome and both tables are those of `RegisterPlan` |
| `Auth.AuthService.LoginAsync` | backend/src/DevBoard.Infrastructure/Services/AuthService.cs:48-65 | the outcome and both tables are those of `LoginPlan` |
| `Auth.AuthService.RefreshAsync` | backend/src/DevBoard.Infrastructure/Services/AuthService.cs:67-95 | the outcome and both tables are those of `RefreshPlan` |
| `Auth.AuthService.RevokeAsync` | backend/src/DevBoard.Infrastructure/Services/AuthService.cs:97-110 | the outcome and both tables are those of `RevokePlan` |
| `Validators.Rule` | backend/src/DevBoard.Api/Validators/CreateProjectRequestValidator.cs:10-12 | a rule reports no failure iff it passes |
| `Validators.Required` | backend/src/DevBoard.Api/Validators/CreateProjectRequestValidator.cs:10-12 | a NotEmpty and MaximumLength pair passes iff the value is not blank and its raw length fits |
| `Validators.Verdict` | backend/src/DevBoard.Api/Validators/CreateProjectRequestValidator.cs:8-25 | a request is accepted iff no rule failed; otherwise it fails with every failure message, in rule order |
| `Validators.ValidateCreateProject` | backend/src/DevBoard.Api/Validators/CreateProjectRequestValidator.cs:10-24 | accepted iff name (150), owner (100), repository (100) and token (4000) are non-blank and fit; a blank name or token reports the not-empty message |
| `Validators.AcceptedProjectFitsEntity` | backend/src/DevBoard.Domain/Entities/Project.cs:33-35 | an accepted request's name, owner and repository also pass the entity's trimmed checks |
| `Validators.ValidateCreateTask` | backend/src/DevBoard.Api/Validators/CreateTaskRequestValidator.cs:10-15 | accepted iff the title is non-blank and at most 250 raw characters and the description, if any, at most 20000 |
| `Validators.MissingDescriptionAccepted` | backend/src/DevBoard.Api/Validators/CreateTaskRequestValidator.cs:14-15 | a request without a description and with a valid title is accepted |
| `Validators.AcceptedTitleFitsEntity` | backend/src/DevBoard.Domain/Entities/Task.cs:108-122 | an accepted title passes the entity's title rule, as its trimmed form |
| `Validators.EmailFailures` | backend/src/DevBoard.Api/Validators/RegisterRequestValidator.cs:10-13 | the e-mail fails iff it is blank, is not an address, or is longer than 200 |
| `Validators.ValidateRegister` | backend/src/DevBoard.Api/Validators/RegisterRequestValidator.cs:10-18 | accepted iff the e-mail passes and the password is non-blank with 8 to 100 characters |
| `Validators.ValidateLogin` | backend/src/DevBoard.Api/Validators/LoginRequestValidator.cs:10-17 | accepted iff the e-mail passes and the password is non-blank with at most 100 characters |
| `Validators.RegisterStricterThanLogin` | backend/src/DevBoard.Api/Validators/RegisterRequestValidator.cs:15-18 | credentials that may register may also log in |
| `Validators.ShortPasswordOnlyRefusedAtRegistration` | backend/src/DevBoard.Api/Validators/LoginRequestValidator.cs:15-17 | a 7-character password is refused at registration with exactly the minimum-length message and accepted at login |
| `Validators.AcceptedEmailFitsAccount` | backend/src/DevBoard.Domain/Entities/AppUser.cs:27 | an accepted e-mail normalizes and passes the account's e-mail rule |
| `Validators.ValidateUpdateStatus` | backend/src/DevBoard.Api/Validators/UpdateTaskStatusRequestValidator.cs:8-15 | accepted iff the value equals a status name ignoring case; a blank value reports both messages |
| `Validators.AllowedIsTheStatusNames` | backend/src/DevBoard.Api/Validators/UpdateTaskStatusRequestValidator.cs:8-14 | allowed iff equal, ignoring case, to Todo, InProgress or Done |
| `Validators.AllowedIsNotBlank` | backend/src/DevBoard.Api/Validators/UpdateTaskStatusRequestValidator.cs:13-14 | an allowed status is not blank and has no surrounding white space |
| `Validators.AcceptedStatusParses` | backend/src/DevBoard.Infrastructure/Services/TaskService.cs:101 | every accepted status parses in the service, to that status |
| `Validators.PaddedStatusParses` | backend/src/DevBoard.Infrastructure/Services/TaskService.cs:101 | " Done" parses to Done in the service |
| `Validators.PaddedStatusRefused` | backend/src/DevBoard.Api/Validators/UpdateTaskStatusRequestValidator.cs:14-15 | " Done" is refused by the validator with the status message only |
| `Validators.ProjectRefusalReply` | backend/src/DevBoard.Api/Validators/CreateProjectRequestValidator.cs:10-24 | a refused project request gets from the model-state reply exactly the 400 reply the middleware gives for its validation error |
| `Validators.TaskRefusalReply` | backend/src/DevBoard.Api/Validators/CreateTaskRequestValidator.cs:10-15 | a refused task request gets from the model-state reply exactly the 400 reply the middleware gives for its validation error |
| `Validators.CredentialsRefusalReply` | backend/src/DevBoard.Api/Validators/RegisterRequestValidator.cs:10-18 | refused registration and login credentials get from the model-state reply exactly the 400 reply the middleware gives for their validation error |
| `Validators.StatusRefusalReply` | backend/src/DevBoard.Api/Validators/UpdateTaskStatusRequestValidator.cs:8-15 | a refused status gets from the model-state reply exactly the 400 reply the middleware gives for its validation error |
| `ErrorHandling.Distinct` | backend/src/DevBoard.Api/Middleware/ExceptionHandlingMiddleware.cs:19 | each message kept once, no repeats, same membership |
| `ErrorHandling.DistinctIdempotent` | backend/src/DevBoard.Api/Middleware/ExceptionHandlingMiddleware.cs:19 | removing repeats twice equals removing them once |
| `ErrorHandling.DistinctKeepsFirst` | backend/src/DevBoard.Api/Middleware/ExceptionHandlingMiddleware.cs:19 | the first message stays first |
| `ErrorHandling.Join` | backend/src/DevBoard.Api/Middleware/ExceptionHandlingMiddleware.cs:19 | the joined text is empty for no parts, the part itself for one, and has the parts' lengths plus one separator between each pair |
| `ErrorHandling.JoinBoundaries` | backend/src/DevBoard.Api/Middleware/ExceptionHandlingMiddleware.cs:19 | the joined text starts with the first part and ends with the last |
| `ErrorHandling.Dispatch` | backend/src/DevBoard.Api/Middleware/ExceptionHandlingMiddleware.cs:17-42 | validation gives 400 with the distinct messages joined by "; "; domain and invalid-operation errors 400, signature errors 401 and GitHub errors 502 with their own message; anything else 500 with "An unexpected error occurred." |
| `ErrorHandling.StatusClassifiesError` | backend/src/DevBoard.Api/Middleware/ExceptionHandlingMiddleware.cs:17-42 | each status code comes from exactly its exception kinds |
| `ErrorHandling.UnexpectedMessageHidden` | backend/src/DevBoard.Api/Middleware/ExceptionHandlingMiddleware.cs:38-42 | an unexpected exception's own message never reaches the client |
| `ErrorHandling.RepeatedValidationMessageShownOnce` | backend/src/DevBoard.Api/Middleware/ExceptionHandlingMiddleware.cs:17-21 | one message reported n times is shown once |
| `ErrorHandling.ValidationMessageStartsWithFirst` | backend/src/DevBoard.Api/Middleware/ExceptionHandlingMiddleware.cs:17-21 | the reply begins with the first validation message |
| `ErrorHandling.ShownMessages` | backend/src/DevBoard.Api/Program.cs:90 | one shown message per model-state error, none of them blank: a non-blank message is kept and a blank one becomes "Invalid input." |
| `ErrorHandling.InvalidModelStateReply` | backend/src/DevBoard.Api/Program.cs:83-96 | the reply to an invalid model state is 400, and its message is empty iff there were no errors |
| `ErrorHandling.ModelStateReplyStartsWithFirst` | backend/src/DevBoard.Api/Program.cs:83-96 | the reply begins with the first shown message |
| `ErrorHandling.ModelStateReplyMatchesMiddleware` | backend/src/DevBoard.Api/Program.cs:83-96 | for non-blank messages the model-state reply equals the middleware's reply to a validation error with the same messages |
| `ErrorHandling.BlankErrorShownAsInvalidInput` | backend/src/DevBoard.Api/Program.cs:90 | any number of blank errors is reported as the single message "Invalid input." |
| `ErrorHandling.FailResponse` | backend/src/DevBoard.Application/Common/ApiResponse.cs:8-9 | a failed response has Success false, no data and the message |
| `ErrorHandling.HttpResponse.WriteError` | backend/src/DevBoard.Api/Middleware/ExceptionHandlingMiddleware.cs:45-52 | the response becomes JSON with the status code and one failed response holding the message |
| `ErrorHandling.HttpResponse.Handle` | backend/src/DevBoard.Api/Middleware/ExceptionHandlingMiddleware.cs:11-43 | with no exception the response is untouched; otherwise it carries the dispatched status and message |
| `KanbanModels.StringField` | frontend/src/app/features/kanban/pages/kanban/kanban.page.ts:379-380 | a field is read as a string iff it is present and a JSON string |
| `KanbanStore.Reduce` | frontend/src/app/features/kanban/store/kanban.reducer.ts:24-81 | the project list changes only on a load or a creation; the selection only on a creation, a hydration or a selection; per-task actions keep the list's length and ids; a new error comes only from one of the five failure actions |
| `KanbanStore.ReduceAll` | frontend/src/app/features/kanban/store/kanban.reducer.ts:24-81 | a run of actions with no project load or creation leaves the project list as it was |
| `KanbanStore.ReduceAllConcat` | frontend/src/app/features/kanban/store/kanban.reducer.ts:24-81 | reducing a concatenation of two runs is reducing the first and then the second |
| `KanbanStore.SetStatusOf` | frontend/src/app/features/kanban/store/kanban.reducer.ts:46-57 | the list keeps its length; the tasks with the id take the status and completion time, the others are unchanged |
| `KanbanStore.ReplaceTask` | frontend/src/app/features/kanban/store/kanban.reducer.ts:58-61 | the list keeps its length; the tasks with the id become the given task, the others are unchanged |
| `KanbanStore.OptimisticMoveOnlyMovesTarget` | frontend/src/app/features/kanban/store/kanban.reducer.ts:46-57 | only the moved task changes: it takes the new status and has a completion time iff the status is Done |
| `KanbanStore.FailedMoveRestoresCapture` | frontend/src/app/features/kanban/store/kanban.reducer.ts:62-74 | the captured status and completion time are restored and the error is recorded |
| `KanbanStore.MoveThenFailureRollsBack` | frontend/src/app/features/kanban/store/kanban.reducer.ts:46-74 | an optimistic move followed by its failure gives back the original state except for the error |
| `KanbanStore.MoveSuccessReplaces` | frontend/src/app/features/kanban/store/kanban.reducer.ts:58-61 | the matching task is replaced wholesale and the others stay |
| `KanbanStore.RealtimeUpdateOverwritesStatus` | frontend/src/app/features/kanban/store/kanban.reducer.ts:75-80 | only status and completion time of the matching task change |
| `KanbanStore.PerTaskActionsKeepOrder` | frontend/src/app/features/kanban/store/kanban.reducer.ts:46-80 | any run of per-task actions keeps the list's length and the id at every position |
| `KanbanStore.ListActions` | frontend/src/app/features/kanban/store/kanban.reducer.ts:27-44 | creating a task appends it; selecting a project sets it and empties the tasks; a created project is appended, selected, and the tasks are emptied |
| `KanbanStore.StartAndFailureFlags` | frontend/src/app/features/kanban/store/kanban.reducer.ts:26-45 | each start action sets its flag and clears the error; its failure clears the flag and sets the error |
| `KanbanSelectors.TasksWithStatus` | frontend/src/app/features/kanban/store/kanban.selectors.ts:13-21 | a task is in the column iff it is on the board with that status |
| `KanbanSelectors.TodoTasks` | frontend/src/app/features/kanban/store/kanban.selectors.ts:13-15 | a task is in the Todo column iff it is on the board with status Todo |
| `KanbanSelectors.InProgressTasks` | frontend/src/app/features/kanban/store/kanban.selectors.ts:16-18 | a task is in the InProgress column iff it is on the board with status InProgress |
| `KanbanSelectors.DoneTasks` | frontend/src/app/features/kanban/store/kanban.selectors.ts:19-21 | a task is in the Done column iff it is on the board with status Done |
| `KanbanSelectors.ColumnsPartitionTasks` | frontend/src/app/features/kanban/store/kanban.selectors.ts:13-21 | the three columns together hold every task exactly as often as the board does |
| `KanbanSelectors.ColumnSizesAddUp` | frontend/src/app/features/kanban/store/kanban.selectors.ts:13-21 | the column sizes add up to the number of tasks |
| `KanbanSelectors.ColumnKeepsOrder` | frontend/src/app/features/kanban/store/kanban.selectors.ts:13-21 | a column keeps the board's order |
| `KanbanSelectors.ColumnOfConcatenation` | frontend/src/app/features/kanban/store/kanban.selectors.ts:13-21 | filtering a concatenation filters each part |
| `KanbanSelectors.CreatedTaskJoinsItsColumn` | frontend/src/app/features/kanban/store/kanban.reducer.ts:44 | a created task appears at the end of its own column only |
| `KanbanSelectors.LoadingWhileStarted` | frontend/src/app/features/kanban/store/kanban.selectors.ts:23-26 | the board shows loading after any start action and not in the initial state |
| `KanbanEffects.LoadProjectsEffect` | frontend/src/app/features/kanban/store/kanban.effects.ts:40-52 | the list on success; on failure the server message when there is one, else the fallback |
| `KanbanEffects.CreateProjectEffect` | frontend/src/app/features/kanban/store/kanban.effects.ts:54-66 | the project on success; on failure the server message when there is one, else the fallback |
| `KanbanEffects.ErrorText` | frontend/src/app/features/kanban/store/kanban.effects.ts:47 | the server's message when it sent one, the fallback text otherwise |
| `KanbanEffects.SelectCreatedProject` | frontend/src/app/features/kanban/store/kanban.effects.ts:68-73 | a created project is selected by its id |
| `KanbanEffects.CreatedProjectStaysSelected` | frontend/src/app/features/kanban/store/kanban.effects.ts:68-107 | after a creation and the selection it triggers the new project is listed and selected with an empty board, and a reload with it remembered selects it again |
| `KanbanEffects.InitialSelection` | frontend/src/app/features/kanban/store/kanban.effects.ts:75-91 | the selected id is always a listed project; null is hydrated iff the list is empty |
| `KanbanEffects.SelectionPrefersStored` | frontend/src/app/features/kanban/store/kanban.effects.ts:79-86 | a stored id that is listed wins; otherwise the first project is selected |
| `KanbanEffects.SelectProjectEffect` | frontend/src/app/features/kanban/store/kanban.effects.ts:93-107 | selecting loads the same project's tasks and remembers its id, leaving the snapshots |
| `KanbanEffects.SelectionSurvivesReload` | frontend/src/app/features/kanban/store/kanban.effects.ts:75-107 | a selected project that is still listed is selected again on the next start |
| `KanbanEffects.LoadTasksEffect` | frontend/src/app/features/kanban/store/kanban.effects.ts:109-126 | a non-empty snapshot is emitted first iff one is stored; the API's answer always comes last |
| `KanbanEffects.LoadShowsLatestTasks` | frontend/src/app/features/kanban/store/kanban.effects.ts:109-126 | after a load the board shows the API's tasks, or on failure the snapshot or the previous tasks, with the error |
| `KanbanEffects.CreateTaskEffect` | frontend/src/app/features/kanban/store/kanban.effects.ts:128-142 | nothing is sent iff no project is selected; otherwise success or failure follows the answer |
| `KanbanEffects.MoveTaskEffect` | frontend/src/app/features/kanban/store/kanban.effects.ts:144-163 | a refused move carries back the captured status and completion time |
| `KanbanEffects.RefusedMoveRollsBack` | frontend/src/app/features/kanban/store/kanban.effects.ts:144-163 | the optimistic move and the failure the effect answers with restore the board, with the error shown |
| `KanbanEffects.PersistTasksSnapshot` | frontend/src/app/features/kanban/store/kanban.effects.ts:183-197 | after a load, a creation or a confirmed move the selected project's tasks are saved; with no project nothing is |
| `KanbanEffects.SavedSnapshotIsReloaded` | frontend/src/app/features/kanban/store/kanban.effects.ts:109-126 | a saved non-empty board is the first thing the next load of that project shows |
| `KanbanPage.StatusOf` | frontend/src/app/features/kanban/pages/kanban/kanban.page.ts:381-384 | a status is read iff the value is exactly one of the three names |
| `KanbanPage.EventMessage` | backend/src/DevBoard.Api/Realtime/SignalRTaskRealtimeNotifier.cs:11 | the server's message is an object with exactly the five event fields, whose completion time is null iff the event has none |
| `KanbanPage.ParseTaskUpdatedEvent` | frontend/src/app/features/kanban/pages/kanban/kanban.page.ts:373-399 | an event is read iff the message is an object with non-empty string ids and a known status; a non-string completion time becomes null and a non-string origin "unknown" |
| `KanbanPage.ParseReadsEventMessage` | frontend/src/app/features/kanban/pages/kanban/kanban.page.ts:373-399 | an event with non-empty ids, written as a message, is read back unchanged |
| `KanbanPage.NonRecordIgnored` | frontend/src/app/features/kanban/pages/kanban/kanban.page.ts:374-376 | anything but an object is ignored |
| `KanbanPage.Invalidated` | frontend/src/app/features/kanban/pages/kanban/kanban.page.ts:356-371 | the three caches lose exactly that task and keep every other entry; nothing else changes |
| `KanbanPage.RealtimeHandled` | frontend/src/app/features/kanban/pages/kanban/kanban.page.ts:108-118 | a readable event for the selected project invalidates that task and is dispatched; anything else changes nothing |
| `KanbanPage.OtherProjectEventsIgnored` | frontend/src/app/features/kanban/pages/kanban/kanban.page.ts:114-117 | events about another project change nothing |
| `KanbanPage.Dropped` | frontend/src/app/features/kanban/pages/kanban/kanban.page.ts:204-220 | a missing task or the same column does nothing; otherwise the task is invalidated and a move with its previous status and completion time is dispatched |
| `KanbanPage.DropMove` | frontend/src/app/features/kanban/pages/kanban/kanban.page.ts:212-219 | the drop asks for an optimistic move of that task to the new column, capturing its status and completion time before the move |
| `KanbanPage.RefusedDropRestoresBoard` | frontend/src/app/features/kanban/pages/kanban/kanban.page.ts:204-220 | dropping a task and having the move refused restores the board, with the error shown |
| `KanbanPage.Opened` | frontend/src/app/features/kanban/pages/kanban/kanban.page.ts:222-247 | the drawer opens on the summary; cached details and comments are shown, and exactly the uncached ones are requested |
| `KanbanPage.Closed` | frontend/src/app/features/kanban/pages/kanban/kanban.page.ts:249-251 | only the drawer closes |
| `KanbanPage.DetailsLoaded` | frontend/src/app/features/kanban/pages/kanban/kanban.page.ts:285-308 | details are shown and cached with their labels, or the error message is shown; loading ends |
| `KanbanPage.CommentsLoaded` | frontend/src/app/features/kanban/pages/kanban/kanban.page.ts:335-354 | comments are shown and cached, or the error message is shown with no comments; loading ends |
| `KanbanPage.ReopenUsesCache` | frontend/src/app/features/kanban/pages/kanban/kanban.page.spec.ts:95-143 | opening a loaded task again sends no request and shows the cached answers |
| `KanbanPage.DropForcesRefetch` | frontend/src/app/features/kanban/pages/kanban/kanban.page.spec.ts:95-143 | a drop in between makes the second opening request both again |
| `KanbanPage.ProjectChanged` | frontend/src/app/features/kanban/pages/kanban/kanban.page.ts:149-159 | an empty id does nothing; otherwise every cache and the loading set are emptied and the project is selected |
| `KanbanPage.KanbanPageView.InvalidateTaskCache` | frontend/src/app/features/kanban/pages/kanban/kanban.page.ts:356-371 | the page state becomes `Invalidated` of the old one |
| `KanbanPage.KanbanPageView.RealtimeHandler` | frontend/src/app/features/kanban/pages/kanban/kanban.page.ts:108-118 | the page state becomes `RealtimeHandled` of the old one |
| `KanbanPage.KanbanPageView.Drop` | frontend/src/app/features/kanban/pages/kanban/kanban.page.ts:204-220 | the page state becomes `Dropped` of the old one |
| `KanbanPage.KanbanPageView.OpenIssueDetails` | frontend/src/app/features/kanban/pages/kanban/kanban.page.ts:222-247 | the page state becomes `Opened` of the old one |
| `KanbanPage.KanbanPageView.CloseIssueDetails` | frontend/src/app/features/kanban/pages/kanban/kanban.page.ts:249-251 | the page state becomes `Closed` of the old one |
| `KanbanPage.KanbanPageView.OnDetails` | frontend/src/app/features/kanban/pages/kanban/kanban.page.ts:290-307 | the page state becomes `DetailsLoaded` of the old one |
| `KanbanPage.KanbanPageView.OnComments` | frontend/src/app/features/kanban/pages/kanban/kanban.page.ts:340-353 | the page state becomes `CommentsLoaded` of the old one |
| `KanbanPage.KanbanPageView.ChangeProject` | frontend/src/app/features/kanban/pages/kanban/kanban.page.ts:149-159 | the page state becomes `ProjectChanged` of the old one |
| `TaskCard.VisibleLabels` | frontend/src/app/features/kanban/components/task-card/task-card.component.ts:21-23 | the first min(2, n) labels, in order |
| `TaskCard.HiddenLabelsCount` | frontend/src/app/features/kanban/components/task-card/task-card.component.ts:25-27 | zero iff at most two labels; fewer than the labels whenever there are any |
| `TaskCard.EveryLabelAccountedFor` | frontend/src/app/features/kanban/components/task-card/task-card.component.ts:21-27 | shown plus hidden is the number of labels, and the shown ones followed by the rest are the labels |
| `TaskCard.ThreeLabelsShowTwo` | frontend/src/app/features/kanban/components/task-card/task-card.component.spec.ts:24-35 | with three labels the first two are shown and the badge reads "+1" |
| `TaskCard.HiddenBadge` | frontend/src/app/features/kanban/components/task-card/task-card.component.spec.ts:31-35 | the badge is "+" followed by decimal digits that denote the hidden count, "+0" with at most two labels |
| `AuthSessionStore.SessionStore.constructor` | frontend/src/app/core/auth/auth-session.store.ts:19-25 | a stored session is restored iff its token is non-empty and its user present; authenticated iff restored |
| `AuthSessionStore.SessionStore.SetSession` | frontend/src/app/core/auth/auth-session.store.ts:27-31 | token and user are set and stored together; authenticated iff the token is non-empty |
| `AuthSessionStore.SessionStore.ClearSession` | frontend/src/app/core/auth/auth-session.store.ts:33-37 | token, user and the stored entry are removed; not authenticated |
| `AuthSessionStore.ReloadRestoresSession` | frontend/src/app/core/auth/auth-session.store.ts:17-31 | a session that was set is restored on reload iff its token is non-empty; a cleared one never is |

## Left out

**External code and runtime**
- GitHub itself (`GitHubIssueService`, Octokit) is out. The issue client answers from scripted replies.
- HMAC-SHA256, SHA-256 and BCrypt are function parameters, not their algorithms.
- JWT signing and data protection (the token protector) are function parameters, not their algorithms.
- JSON deserialisation of the webhook payload is a parser parameter. The model starts from a parsed record with optional fields.
- EF Core is replaced by in-memory tables with the unique indexes as invariants. A save failure is an `Option<Error>` parameter. The issue reads' `Include` of the project becomes a project lookup.
- Async code, cancellation, concurrent deliveries and locking are left out.
- Logging is left out.
- SignalR delivery is left out. Notifications are an appended log.
- SQL collation is left out. The e-mail duplicate check is ordinal on the normalized address.
- SQL Server's string equality, which ignores trailing spaces, is left out. The ledger's duplicate check and unique index compare delivery ids ordinally.
- The HTTP server's parsing of request headers, which strips spaces and tabs around a value, is left out. `ProcessAsync` receives the delivery id and signature as given.
- `Validators.Verdict`: FluentValidation's auto-validation, the model state and the order in which `ModelState` enumerates its errors are not modelled. A refused request reaches the client through `ErrorHandling.InvalidModelStateReply`, whose messages are assumed to come in rule order. The `ValidationFailed` error a verdict carries is not thrown by the program. The `...RefusalReply` lemmas prove that `ErrorHandling.Dispatch` would give the same reply.
- Controllers, `Program.cs` and dependency injection are left out.
- The front end's HTTP services, interceptors, guards and routes are left out.
- The template that renders the "+n" badge is not part of this model. `TaskCard.HiddenBadge` states the text the card spec looks for.
- `AuthService.CreateSession` receives the client address and ignores it. The model has no such parameter.

**Strings and numbers**
- Case folding is ASCII only; `ToLowerInvariant` on other letters is not modelled.
- String lengths count characters, not UTF-16 code units. Lone surrogates are not representable.
- Integers are unbounded. The 32-bit issue number, `DateTime` ranges and `AddDays` overflow are not modelled.
- Each operation reads the clock once, as a parameter.
- `TaskServices.ParseStatus`: `Enum.TryParse` also accepts decimal numerals and comma-separated names. Only the three names are modelled. The request validator already refuses everything else before the service sees it.
- The e-mail format check (`EmailAddress()`) is an abstract predicate parameter.
- The request validators' messages follow FluentValidation's default English templates and display names ("Repo Owner", "Git Hub Token"). Those come from the library and are restated here.

**Front end**
- Local storage holds only values the app wrote itself.
- JSON truthiness of numbers (`NaN`) is not modelled.
- `syncTaskLabelsEffect`, `loadTaskLabels` and `setIssueTab` are left out, because they only prefetch labels or switch tabs.
- `hasIssueDescription`, `issueLabelStyle` and the `has...Error` helpers are left out, because they are view helpers.
- `submitProject` and `submitTask` are left out, because they are form handling.
- The notification effects are left out.
- A `labels` value of `null` in an issue's details is not modelled; labels are always a list.
- The field selectors return state fields unchanged and have no members of their own.
- `hydrateSelectedProject`'s payload field is called `hydratedProjectId` in the model.
