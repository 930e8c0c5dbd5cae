/** The project entity: a board bound to one GitHub repository, holding the
    protected access token used to call GitHub on its behalf. */
module Projects {
  import opened Common
  import opened Text
  import opened Required

  const MaxNameLength: nat := 150
  const MaxRepoOwnerLength: nat := 100
  const MaxRepoNameLength: nat := 100
  const MaxTokenLength: nat := 4000

  datatype ProjectRow = ProjectRow(
    id: Guid,
    name: string,
    repoOwner: string,
    repoName: string,
    gitHubTokenEncrypted: string,
    createdAt: Instant)

  /** Every text field is non-blank, trimmed and within its limit. */
  predicate WellFormed(p: ProjectRow) {
    && StoredForm(p.name, MaxNameLength)
    && StoredForm(p.repoOwner, MaxRepoOwnerLength)
    && StoredForm(p.repoName, MaxRepoNameLength)
    && StoredForm(p.gitHubTokenEncrypted, MaxTokenLength)
  }

  function ValidateName(name: string): Result<string> {
    ValidateRequired(name, "name", MaxNameLength)
  }

  function ValidateRepoOwner(repoOwner: string): Result<string> {
    ValidateRequired(repoOwner, "repoOwner", MaxRepoOwnerLength)
  }

  function ValidateRepoName(repoName: string): Result<string> {
    ValidateRequired(repoName, "repoName", MaxRepoNameLength)
  }

  function ValidateToken(token: string): Result<string> {
    ValidateRequired(token, "gitHubTokenEncrypted", MaxTokenLength)
  }

  /** The constructor `Project(name, repoOwner, repoName, token, createdAt)`:
      the fields are validated in that order and the first failure is thrown. */
  function NewProject(id: Guid, name: string, repoOwner: string, repoName: string, token: string,
                      createdAt: Option<Instant>, now: Instant): (r: Result<ProjectRow>)
    ensures r.Ok? <==> ValidateName(name).Ok? && ValidateRepoOwner(repoOwner).Ok?
                       && ValidateRepoName(repoName).Ok? && ValidateToken(token).Ok?
    ensures ValidateName(name).Fail? ==> r == Fail(FieldError(name, "name", MaxNameLength))
    ensures ValidateName(name).Ok? && ValidateRepoOwner(repoOwner).Fail? ==>
      r == Fail(FieldError(repoOwner, "repoOwner", MaxRepoOwnerLength))
    ensures ValidateName(name).Ok? && ValidateRepoOwner(repoOwner).Ok? && ValidateRepoName(repoName).Fail? ==>
      r == Fail(FieldError(repoName, "repoName", MaxRepoNameLength))
    ensures ValidateName(name).Ok? && ValidateRepoOwner(repoOwner).Ok? && ValidateRepoName(repoName).Ok?
            && ValidateToken(token).Fail? ==>
      r == Fail(FieldError(token, "gitHubTokenEncrypted", MaxTokenLength))
    ensures r.Fail? ==> r.error.DomainRule?
    ensures r.Ok? ==>
      && WellFormed(r.value)
      && r.value == ProjectRow(id, Trim(name), Trim(repoOwner), Trim(repoName), Trim(token), createdAt.GetOr(now))
  {
    var validName :- ValidateName(name);
    var validOwner :- ValidateRepoOwner(repoOwner);
    var validRepo :- ValidateRepoName(repoName);
    var validToken :- ValidateToken(token);
    Ok(ProjectRow(id, validName, validOwner, validRepo, validToken, createdAt.GetOr(now)))
  }

  /** The row after `UpdateName(name)`. */
  function NameUpdated(p: ProjectRow, name: string): (r: Result<ProjectRow>)
    ensures r.Ok? <==> ValidateName(name).Ok?
    ensures r.Ok? ==> r.value == p.(name := Trim(name))
    ensures r.Ok? && WellFormed(p) ==> WellFormed(r.value)
  {
    var validName :- ValidateName(name);
    Ok(p.(name := validName))
  }

  /** The row after `RotateGitHubToken(token)`. */
  function TokenRotated(p: ProjectRow, token: string): (r: Result<ProjectRow>)
    ensures r.Ok? <==> ValidateToken(token).Ok?
    ensures r.Ok? ==> r.value == p.(gitHubTokenEncrypted := Trim(token))
    ensures r.Ok? && WellFormed(p) ==> WellFormed(r.value)
  {
    var validToken :- ValidateToken(token);
    Ok(p.(gitHubTokenEncrypted := validToken))
  }

  /** `UpdateRepository(repoOwner, repoName)` assigns the owner before it
      validates the name, so it is not atomic: the pair is the row the entity
      is left with and the outcome, and when only the name is invalid the new
      owner stays in place although the call throws. */
  function RepositoryUpdated(p: ProjectRow, repoOwner: string, repoName: string): (out: (ProjectRow, Result<()>))
    ensures out.1.Ok? <==> ValidateRepoOwner(repoOwner).Ok? && ValidateRepoName(repoName).Ok?
    ensures out.1.Ok? ==> out.0 == p.(repoOwner := Trim(repoOwner), repoName := Trim(repoName))
    ensures ValidateRepoOwner(repoOwner).Fail? ==> out == (p, Fail(ValidateRepoOwner(repoOwner).error))
    ensures ValidateRepoOwner(repoOwner).Ok? && ValidateRepoName(repoName).Fail? ==>
      out == (p.(repoOwner := Trim(repoOwner)), Fail(ValidateRepoName(repoName).error))
    ensures WellFormed(p) ==> WellFormed(out.0)
  {
    match ValidateRepoOwner(repoOwner)
    case Fail(e) => (p, Fail(e))
    case Ok(validOwner) =>
      var withOwner := p.(repoOwner := validOwner);
      match ValidateRepoName(repoName)
      case Fail(e) => (withOwner, Fail(e))
      case Ok(validRepo) => (withOwner.(repoName := validRepo), Ok(()))
  }

  class Project {
    var Id: Guid
    var Name: string
    var RepoOwner: string
    var RepoName: string
    var GitHubTokenEncrypted: string
    var CreatedAt: Instant

    function Row(): ProjectRow
      reads this
    {
      ProjectRow(Id, Name, RepoOwner, RepoName, GitHubTokenEncrypted, CreatedAt)
    }

    constructor Init(row: ProjectRow)
      ensures Row() == row
    {
      Id := row.id;
      Name := row.name;
      RepoOwner := row.repoOwner;
      RepoName := row.repoName;
      GitHubTokenEncrypted := row.gitHubTokenEncrypted;
      CreatedAt := row.createdAt;
    }

    /** The validating constructor; `id` is the new identifier and `now` the clock. */
    static method Create(id: Guid, name: string, repoOwner: string, repoName: string, token: string,
                         createdAt: Option<Instant>, now: Instant) returns (r: Result<Project>)
      ensures r.Ok? <==> NewProject(id, name, repoOwner, repoName, token, createdAt, now).Ok?
      ensures r.Ok? ==> fresh(r.value) && r.value.Row() == NewProject(id, name, repoOwner, repoName, token, createdAt, now).value
      ensures r.Fail? ==> r.error == NewProject(id, name, repoOwner, repoName, token, createdAt, now).error
    {
      var row := NewProject(id, name, repoOwner, repoName, token, createdAt, now);
      if row.Fail? {
        return Fail(row.error);
      }
      var project := new Project.Init(row.value);
      return Ok(project);
    }

    method UpdateName(name: string) returns (r: Result<()>)
      modifies this
      ensures r.Ok? <==> NameUpdated(old(Row()), name).Ok?
      ensures r.Ok? ==> Row() == NameUpdated(old(Row()), name).value
      ensures r.Fail? ==> Row() == old(Row()) && r.error == ValidateName(name).error
    {
      var validName := ValidateName(name);
      if validName.Fail? {
        return Fail(validName.error);
      }
      Name := validName.value;
      return Ok(());
    }

    method UpdateRepository(repoOwner: string, repoName: string) returns (r: Result<()>)
      modifies this
      ensures (Row(), r) == RepositoryUpdated(old(Row()), repoOwner, repoName)
    {
      var validOwner := ValidateRepoOwner(repoOwner);
      if validOwner.Fail? {
        return Fail(validOwner.error);
      }
      RepoOwner := validOwner.value;
      var validRepo := ValidateRepoName(repoName);
      if validRepo.Fail? {
        return Fail(validRepo.error);
      }
      RepoName := validRepo.value;
      return Ok(());
    }

    method RotateGitHubToken(token: string) returns (r: Result<()>)
      modifies this
      ensures r.Ok? <==> TokenRotated(old(Row()), token).Ok?
      ensures r.Ok? ==> Row() == TokenRotated(old(Row()), token).value
      ensures r.Fail? ==> Row() == old(Row()) && r.error == ValidateToken(token).error
    {
      var validToken := ValidateToken(token);
      if validToken.Fail? {
        return Fail(validToken.error);
      }
      GitHubTokenEncrypted := validToken.value;
      return Ok(());
    }
  }
}
