/** The request validators of the API layer. Each one is a FluentValidation
    rule set that automatic validation runs before a controller action. A
    string rule chain runs every rule, so one field can report several
    failures. The request is accepted, or refused with all the failure
    messages: they go into the model state, and the model-state factory
    answers 400 with them (`ErrorHandling.InvalidModelStateReply`). */
module Validators {
  import opened Common
  import opened Text
  import opened ErrorHandling
  import Tasks
  import TaskServices
  import Projects
  import Users
  import Auth

  // ------------------------------------------------------------ rule messages

  /** The template of the messages that name the property first:
      `'{PropertyName}'` followed by the rule's text. */
  function PropertyMessage(property: string, text: string): (r: string)
    ensures !IsBlank(r) && r[0] == '\''
  {
    var r := "'" + property + "'" + text;
    assert r[0] == "'"[0];
    r
  }

  /** The template of the length messages: the bound the rule sets and the
      length that was entered. */
  function LengthMessage(property: string, bound: string, length: nat): (r: string)
    ensures !IsBlank(r) && r[0] == 'T'
  {
    var head := "The length of '" + property + "' must be ";
    assert head[0] == 'T';
    var r := head + bound + ". You entered " + NatToString(length) + " characters.";
    assert r[0] == head[0];
    r
  }

  /** `NotEmpty()`'s message. */
  function NotEmptyMessage(property: string): string {
    PropertyMessage(property, " must not be empty.")
  }

  /** `EmailAddress()`'s message. */
  function EmailMessage(property: string): string {
    PropertyMessage(property, " is not a valid email address.")
  }

  /** `MaximumLength(max)`'s message. */
  function MaxLengthMessage(property: string, max: nat, length: nat): string {
    LengthMessage(property, NatToString(max) + " characters or fewer", length)
  }

  /** `MinimumLength(min)`'s message. */
  function MinLengthMessage(property: string, min: nat, length: nat): string {
    LengthMessage(property, "at least " + NatToString(min) + " characters", length)
  }

  const StatusMessage: string := "Status must be one of: Todo, InProgress, Done."

  // -------------------------------------------------------------- the rules

  /** One rule: no failure when it passes, its message when it does not. */
  function Rule(passes: bool, message: string): (r: seq<string>)
    ensures r == [] <==> passes
    ensures !passes ==> r == [message]
  {
    if passes then [] else [message]
  }

  /** `NotEmpty()` on a string: an empty or white-space-only value fails. */
  function NotEmpty(property: string, value: string): seq<string> {
    Rule(!IsBlank(value), NotEmptyMessage(property))
  }

  /** `MaximumLength(max)`: passes on a missing value. */
  function MaximumLength(property: string, value: Option<string>, max: nat): seq<string> {
    match value
    case None => []
    case Some(s) => Rule(|s| <= max, MaxLengthMessage(property, max, |s|))
  }

  /** `MinimumLength(min)`. */
  function MinimumLength(property: string, value: string, min: nat): seq<string> {
    Rule(min <= |value|, MinLengthMessage(property, min, |value|))
  }

  /** `.NotEmpty().MaximumLength(max)` on a required string. */
  function Required(property: string, value: string, max: nat): (r: seq<string>)
    ensures r == [] <==> !IsBlank(value) && |value| <= max
  {
    NotEmpty(property, value) + MaximumLength(property, Some(value), max)
  }

  /** The verdict: accepted when no rule failed, otherwise refused with every
      failure message in rule order. */
  function Verdict(failures: seq<string>): (r: Result<()>)
    ensures r.Ok? <==> failures == []
    ensures r.Fail? ==> r.error == ValidationFailed(failures)
  {
    if failures == [] then Ok(()) else Fail(ValidationFailed(failures))
  }

  /** No failure message is blank, so none is replaced by "Invalid input.". */
  predicate NoBlankMessage(messages: seq<string>) {
    forall i :: 0 <= i < |messages| ==> !IsBlank(messages[i])
  }

  lemma NoBlankConcat(a: seq<string>, b: seq<string>)
    requires NoBlankMessage(a) && NoBlankMessage(b)
    ensures NoBlankMessage(a + b)
  {
    forall i | 0 <= i < |a + b|
      ensures !IsBlank((a + b)[i])
    {
      if i >= |a| { assert (a + b)[i] == b[i - |a|]; }
    }
  }

  /** The membership message starts with 'S'. */
  lemma StatusMessageNotBlank()
    ensures !IsBlank(StatusMessage)
  {
    assert StatusMessage[|StatusMessage| - 1] == '.';
  }

  lemma RequiredNotBlank(property: string, value: string, max: nat)
    ensures NoBlankMessage(Required(property, value, max))
    ensures NoBlankMessage(MaximumLength(property, Some(value), max))
  {
    NoBlankConcat(NotEmpty(property, value), MaximumLength(property, Some(value), max));
  }

  /** A refusal with no blank message gets the same 400 from the model-state
      factory as the middleware gives a validation exception. */
  lemma RefusalReply(failures: seq<string>)
    requires NoBlankMessage(failures)
    ensures Verdict(failures).Fail? ==> InvalidModelStateReply(failures) == Dispatch(Verdict(failures).error)
  {
    ModelStateReplyMatchesMiddleware(failures);
  }

  // --------------------------------------------------------- CreateProject

  datatype CreateProjectRequest = CreateProjectRequest(name: string, repoOwner: string, repoName: string, gitHubToken: string)

  /** What `CreateProjectRequestValidator` lets through. */
  predicate ProjectRequestAcceptable(req: CreateProjectRequest) {
    && !IsBlank(req.name) && |req.name| <= 150
    && !IsBlank(req.repoOwner) && |req.repoOwner| <= 100
    && !IsBlank(req.repoName) && |req.repoName| <= 100
    && !IsBlank(req.gitHubToken) && |req.gitHubToken| <= 4000
  }

  function CreateProjectFailures(req: CreateProjectRequest): seq<string> {
    Required("Name", req.name, 150)
      + Required("Repo Owner", req.repoOwner, 100)
      + Required("Repo Name", req.repoName, 100)
      + Required("Git Hub Token", req.gitHubToken, 4000)
  }

  function ValidateCreateProject(req: CreateProjectRequest): (r: Result<()>)
    ensures r.Ok? <==> ProjectRequestAcceptable(req)
    ensures r.Fail? ==> r.error.ValidationFailed?
    ensures IsBlank(req.name) ==> r.Fail? && NotEmptyMessage("Name") in r.error.messages
    ensures IsBlank(req.gitHubToken) ==> r.Fail? && NotEmptyMessage("Git Hub Token") in r.error.messages
  {
    Verdict(CreateProjectFailures(req))
  }

  /** A project request the validator accepts is also accepted by the
      project entity's own rules for the name and the repository. */
  lemma AcceptedProjectFitsEntity(req: CreateProjectRequest)
    requires ValidateCreateProject(req).Ok?
    ensures Projects.ValidateName(req.name) == Ok(Trim(req.name))
    ensures Projects.ValidateRepoOwner(req.repoOwner) == Ok(Trim(req.repoOwner))
    ensures Projects.ValidateRepoName(req.repoName) == Ok(Trim(req.repoName))
  {
  }

  // ------------------------------------------------------------ CreateTask

  datatype CreateTaskRequest = CreateTaskRequest(title: string, description: Option<string>)

  /** What `CreateTaskRequestValidator` lets through. */
  predicate TaskRequestAcceptable(req: CreateTaskRequest) {
    && !IsBlank(req.title) && |req.title| <= 250
    && (req.description.Some? ==> |req.description.value| <= 20000)
  }

  function CreateTaskFailures(req: CreateTaskRequest): seq<string> {
    Required("Title", req.title, 250) + MaximumLength("Description", req.description, 20000)
  }

  function ValidateCreateTask(req: CreateTaskRequest): (r: Result<()>)
    ensures r.Ok? <==> TaskRequestAcceptable(req)
    ensures r.Fail? ==> r.error.ValidationFailed?
  {
    Verdict(CreateTaskFailures(req))
  }

  /** A missing description never makes a request fail. */
  lemma MissingDescriptionAccepted(title: string)
    ensures ValidateCreateTask(CreateTaskRequest(title, None)).Ok? <==> !IsBlank(title) && |title| <= 250
  {
  }

  /** An accepted title is also accepted by the task entity, which stores it trimmed. */
  lemma AcceptedTitleFitsEntity(req: CreateTaskRequest)
    requires ValidateCreateTask(req).Ok?
    ensures Tasks.ValidateTitle(req.title) == Ok(Trim(req.title))
  {
  }

  // ------------------------------------------------------- Register / Login

  /** `EmailAddress()`: the format predicate is a parameter of the model. */
  type EmailFormat = string -> bool

  datatype Credentials = Credentials(email: string, password: string)

  /** `.NotEmpty().EmailAddress().MaximumLength(200)` on the email. */
  function EmailFailures(isEmail: EmailFormat, email: string): (r: seq<string>)
    ensures r == [] <==> !IsBlank(email) && isEmail(email) && |email| <= 200
  {
    NotEmpty("Email", email) + Rule(isEmail(email), EmailMessage("Email"))
      + MaximumLength("Email", Some(email), 200)
  }

  predicate RegisterAcceptable(isEmail: EmailFormat, req: Credentials) {
    && !IsBlank(req.email) && isEmail(req.email) && |req.email| <= 200
    && !IsBlank(req.password) && 8 <= |req.password| <= 100
  }

  function RegisterFailures(isEmail: EmailFormat, req: Credentials): seq<string> {
    EmailFailures(isEmail, req.email)
      + NotEmpty("Password", req.password)
      + MinimumLength("Password", req.password, 8)
      + MaximumLength("Password", Some(req.password), 100)
  }

  function ValidateRegister(isEmail: EmailFormat, req: Credentials): (r: Result<()>)
    ensures r.Ok? <==> RegisterAcceptable(isEmail, req)
    ensures r.Fail? ==> r.error.ValidationFailed?
  {
    Verdict(RegisterFailures(isEmail, req))
  }

  predicate LoginAcceptable(isEmail: EmailFormat, req: Credentials) {
    && !IsBlank(req.email) && isEmail(req.email) && |req.email| <= 200
    && !IsBlank(req.password) && |req.password| <= 100
  }

  function LoginFailures(isEmail: EmailFormat, req: Credentials): seq<string> {
    EmailFailures(isEmail, req.email)
      + NotEmpty("Password", req.password)
      + MaximumLength("Password", Some(req.password), 100)
  }

  function ValidateLogin(isEmail: EmailFormat, req: Credentials): (r: Result<()>)
    ensures r.Ok? <==> LoginAcceptable(isEmail, req)
    ensures r.Fail? ==> r.error.ValidationFailed?
  {
    Verdict(LoginFailures(isEmail, req))
  }

  /** Whatever registration accepts, login accepts too. */
  lemma RegisterStricterThanLogin(isEmail: EmailFormat, req: Credentials)
    requires ValidateRegister(isEmail, req).Ok?
    ensures ValidateLogin(isEmail, req).Ok?
  {
  }

  /** Login has no minimum password length: a seven-character password is
      refused at registration with the minimum-length message alone, and let
      through at login. */
  lemma ShortPasswordOnlyRefusedAtRegistration(isEmail: EmailFormat, email: string)
    requires !IsBlank(email) && isEmail(email) && |email| <= 200
    ensures ValidateRegister(isEmail, Credentials(email, "secret7")) == Fail(ValidationFailed([MinLengthMessage("Password", 8, 7)]))
    ensures ValidateLogin(isEmail, Credentials(email, "secret7")).Ok?
  {
    var req := Credentials(email, "secret7");
    assert !IsBlank("secret7") by { assert !IsWhiteSpace("secret7"[0]); }
    assert EmailFailures(isEmail, email) == [];
    assert RegisterFailures(isEmail, req) == [MinLengthMessage("Password", 8, 7)];
  }

  /** An accepted email normalises without error to a stored account email
      within the account's length limit. */
  lemma AcceptedEmailFitsAccount(isEmail: EmailFormat, req: Credentials)
    requires ValidateLogin(isEmail, req).Ok?
    ensures Auth.NormalizeEmail(req.email).Ok?
    ensures Users.ValidateEmail(Auth.NormalizeEmail(req.email).value).Ok?
  {
    var n := Auth.NormalizeEmail(req.email).value;
    assert |n| == |Trim(req.email)| <= 200;
    TrimOfTrimmed(n);
  }

  // ------------------------------------------------------ UpdateTaskStatus

  /** `AllowedStatuses.Contains(status, StringComparer.OrdinalIgnoreCase)` */
  predicate AllowedStatus(status: string) {
    || EqualsIgnoreCase(status, "Todo")
    || EqualsIgnoreCase(status, "InProgress")
    || EqualsIgnoreCase(status, "Done")
  }

  function UpdateStatusFailures(status: string): seq<string> {
    NotEmpty("Status", status) + Rule(AllowedStatus(status), StatusMessage)
  }

  function ValidateUpdateStatus(status: string): (r: Result<()>)
    ensures r.Ok? <==> exists s: Tasks.Status :: EqualsIgnoreCase(status, Tasks.StatusName(s))
    ensures IsBlank(status) ==> r == Fail(ValidationFailed([NotEmptyMessage("Status"), StatusMessage]))
  {
    AllowedIsTheStatusNames(status);
    BlankFailsBothRules(status);
    Verdict(UpdateStatusFailures(status))
  }

  /** A blank status fails the non-empty rule and the membership rule. */
  lemma BlankFailsBothRules(status: string)
    ensures IsBlank(status) ==> UpdateStatusFailures(status) == [NotEmptyMessage("Status"), StatusMessage]
  {
    if IsBlank(status) && AllowedStatus(status) {
      AllowedIsNotBlank(status);
    }
  }

  lemma AllowedIsTheStatusNames(status: string)
    ensures AllowedStatus(status) <==> exists s: Tasks.Status :: EqualsIgnoreCase(status, Tasks.StatusName(s))
  {
    if EqualsIgnoreCase(status, "Todo") {
      assert EqualsIgnoreCase(status, Tasks.StatusName(Tasks.Todo));
    } else if EqualsIgnoreCase(status, "InProgress") {
      assert EqualsIgnoreCase(status, Tasks.StatusName(Tasks.InProgress));
    } else if EqualsIgnoreCase(status, "Done") {
      assert EqualsIgnoreCase(status, Tasks.StatusName(Tasks.Done));
    }
    if exists s: Tasks.Status :: EqualsIgnoreCase(status, Tasks.StatusName(s)) {
      var s: Tasks.Status :| EqualsIgnoreCase(status, Tasks.StatusName(s));
      match s
      case Todo => assert Tasks.StatusName(s) == "Todo";
      case InProgress => assert Tasks.StatusName(s) == "InProgress";
      case Done => assert Tasks.StatusName(s) == "Done";
    }
  }

  /** A character whose lower-case form is a letter is itself a letter, so not white space. */
  lemma FoldsToLetter(c: char)
    requires 'a' <= ToLowerChar(c) <= 'z'
    ensures !IsWhiteSpace(c)
  {
  }

  /** A value that matches a status name ignoring case has no white space at
      either end, so it is not blank and is its own trimmed form. */
  lemma AllowedIsNotBlank(status: string)
    requires AllowedStatus(status)
    ensures !IsBlank(status) && IsTrimmed(status)
  {
    var l := ToLower(status);
    assert l == "todo" || l == "inprogress" || l == "done";
    assert |status| > 0 && 'a' <= l[0] <= 'z' && 'a' <= l[|l| - 1] <= 'z';
    FoldsToLetter(status[0]);
    FoldsToLetter(status[|status| - 1]);
  }

  /** A status the validator accepts reaches the service's parse as exactly
      the status it names. */
  lemma AcceptedStatusParses(status: string, s: Tasks.Status)
    requires ValidateUpdateStatus(status).Ok?
    requires EqualsIgnoreCase(status, Tasks.StatusName(s))
    ensures TaskServices.ParseStatus(status) == Some(s)
  {
    AllowedIsTheStatusNames(status);
    AllowedIsNotBlank(status);
    TrimOfTrimmed(status);
  }

  /** The validator is stricter than the service's parse: a name with a
      leading space is parsed by the service ... */
  lemma PaddedStatusParses()
    ensures TaskServices.ParseStatus(" Done") == Some(Tasks.Done)
  {
    assert " Done" == [' '] + "Done";
    LeadingSpaceTrimmed("Done");
  }

  /** ... but refused by the validator with the membership message alone. */
  lemma PaddedStatusRefused()
    ensures ValidateUpdateStatus(" Done") == Fail(ValidationFailed([StatusMessage]))
  {
    assert !IsBlank(" Done") by { assert !IsWhiteSpace(" Done"[1]); }
    assert |ToLower(" Done")| == 5;
    assert !AllowedStatus(" Done");
  }

  /** Trimming drops one leading space in front of a trimmed, non-empty value. */
  lemma LeadingSpaceTrimmed(s: string)
    requires s != [] && IsTrimmed(s)
    ensures Trim([' '] + s) == s
  {
    assert ([' '] + s)[1..] == s;
    assert TrimStart([' '] + s) == TrimStart(s) == s;
    TrimOfTrimmed(s);
  }

  // ------------------------------------------------------ refused requests
  //
  // Every refused request is answered 400 with its distinct failure messages
  // joined by "; ", whether the reply comes from the model-state factory or
  // from the middleware's validation clause.

  lemma ProjectRefusalReply(project: CreateProjectRequest)
    ensures ValidateCreateProject(project).Fail? ==>
              InvalidModelStateReply(CreateProjectFailures(project)) == Dispatch(ValidateCreateProject(project).error)
  {
    var name, owner := Required("Name", project.name, 150), Required("Repo Owner", project.repoOwner, 100);
    var repo, token := Required("Repo Name", project.repoName, 100), Required("Git Hub Token", project.gitHubToken, 4000);
    RequiredNotBlank("Name", project.name, 150);
    RequiredNotBlank("Repo Owner", project.repoOwner, 100);
    RequiredNotBlank("Repo Name", project.repoName, 100);
    RequiredNotBlank("Git Hub Token", project.gitHubToken, 4000);
    NoBlankConcat(name, owner);
    NoBlankConcat(name + owner, repo);
    NoBlankConcat(name + owner + repo, token);
    RefusalReply(CreateProjectFailures(project));
  }

  lemma TaskRefusalReply(task: CreateTaskRequest)
    ensures ValidateCreateTask(task).Fail? ==>
              InvalidModelStateReply(CreateTaskFailures(task)) == Dispatch(ValidateCreateTask(task).error)
  {
    RequiredNotBlank("Title", task.title, 250);
    if task.description.Some? {
      RequiredNotBlank("Description", task.description.value, 20000);
    }
    NoBlankConcat(Required("Title", task.title, 250), MaximumLength("Description", task.description, 20000));
    RefusalReply(CreateTaskFailures(task));
  }

  lemma EmailFailuresNotBlank(isEmail: EmailFormat, email: string)
    ensures NoBlankMessage(EmailFailures(isEmail, email))
  {
    RequiredNotBlank("Email", email, 200);
    NoBlankConcat(NotEmpty("Email", email), Rule(isEmail(email), EmailMessage("Email")));
    NoBlankConcat(NotEmpty("Email", email) + Rule(isEmail(email), EmailMessage("Email")), MaximumLength("Email", Some(email), 200));
  }

  lemma CredentialsRefusalReply(isEmail: EmailFormat, credentials: Credentials)
    ensures ValidateRegister(isEmail, credentials).Fail? ==>
              InvalidModelStateReply(RegisterFailures(isEmail, credentials)) == Dispatch(ValidateRegister(isEmail, credentials).error)
    ensures ValidateLogin(isEmail, credentials).Fail? ==>
              InvalidModelStateReply(LoginFailures(isEmail, credentials)) == Dispatch(ValidateLogin(isEmail, credentials).error)
  {
    var password := credentials.password;
    var email := EmailFailures(isEmail, credentials.email);
    var notEmpty, min, max := NotEmpty("Password", password), MinimumLength("Password", password, 8), MaximumLength("Password", Some(password), 100);
    EmailFailuresNotBlank(isEmail, credentials.email);
    RequiredNotBlank("Password", password, 100);
    NoBlankConcat(email, notEmpty);
    NoBlankConcat(email + notEmpty, min);
    NoBlankConcat(email + notEmpty + min, max);
    NoBlankConcat(email + notEmpty, max);
    RefusalReply(RegisterFailures(isEmail, credentials));
    RefusalReply(LoginFailures(isEmail, credentials));
  }

  lemma StatusRefusalReply(status: string)
    ensures ValidateUpdateStatus(status).Fail? ==>
              InvalidModelStateReply(UpdateStatusFailures(status)) == Dispatch(ValidateUpdateStatus(status).error)
  {
    StatusMessageNotBlank();
    NoBlankConcat(NotEmpty("Status", status), Rule(AllowedStatus(status), StatusMessage));
    RefusalReply(UpdateStatusFailures(status));
  }
}
