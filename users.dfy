/** The user account entity and the refresh-token entity that backs a login session. */
module Users {
  import opened Common
  import opened Text
  import opened Required

  const MaxEmailLength: nat := 200
  const MaxPasswordHashLength: nat := 500
  const MaxRoleLength: nat := 50
  const MaxTokenHashLength: nat := 200

  /** Lower-casing neither creates nor removes white space. */
  lemma ToLowerKeepsWhiteSpace(c: char)
    ensures IsWhiteSpace(ToLowerChar(c)) <==> IsWhiteSpace(c)
  {
  }

  /** Lower-casing a stored value keeps it stored: still non-blank, trimmed and within the limit. */
  lemma ToLowerKeepsStoredForm(s: string, maxLength: nat)
    requires StoredForm(s, maxLength)
    ensures StoredForm(ToLower(s), maxLength)
  {
    ToLowerKeepsWhiteSpace(s[0]);
    ToLowerKeepsWhiteSpace(s[|s| - 1]);
  }

  // ---------------------------------------------------------------- AppUser

  datatype UserRow = UserRow(
    id: Guid,
    email: string,
    passwordHash: string,
    role: string,
    isActive: bool,
    createdAt: Instant)

  predicate UserWellFormed(u: UserRow) {
    && StoredForm(u.email, MaxEmailLength) && ToLower(u.email) == u.email
    && StoredForm(u.passwordHash, MaxPasswordHashLength)
    && StoredForm(u.role, MaxRoleLength)
  }

  function ValidateEmail(email: string): Result<string> {
    ValidateRequired(email, "email", MaxEmailLength)
  }

  function ValidatePasswordHash(passwordHash: string): Result<string> {
    ValidateRequired(passwordHash, "passwordHash", MaxPasswordHashLength)
  }

  function ValidateRole(role: string): Result<string> {
    ValidateRequired(role, "role", MaxRoleLength)
  }

  /** The constructor `AppUser(email, passwordHash, role, createdAt)`: the email
      is stored trimmed and lower-cased, and a new account is active. */
  function NewUser(id: Guid, email: string, passwordHash: string, role: string,
                   createdAt: Option<Instant>, now: Instant): (r: Result<UserRow>)
    ensures r.Ok? <==> ValidateEmail(email).Ok? && ValidatePasswordHash(passwordHash).Ok? && ValidateRole(role).Ok?
    ensures ValidateEmail(email).Fail? ==> r == Fail(FieldError(email, "email", MaxEmailLength))
    ensures ValidateEmail(email).Ok? && ValidatePasswordHash(passwordHash).Fail? ==>
      r == Fail(FieldError(passwordHash, "passwordHash", MaxPasswordHashLength))
    ensures ValidateEmail(email).Ok? && ValidatePasswordHash(passwordHash).Ok? && ValidateRole(role).Fail? ==>
      r == Fail(FieldError(role, "role", MaxRoleLength))
    ensures r.Fail? ==> r.error.DomainRule?
    ensures r.Ok? ==>
      && UserWellFormed(r.value)
      && r.value == UserRow(id, ToLower(Trim(email)), Trim(passwordHash), Trim(role), true, createdAt.GetOr(now))
  {
    var validEmail :- ValidateEmail(email);
    var validHash :- ValidatePasswordHash(passwordHash);
    var validRole :- ValidateRole(role);
    ToLowerKeepsStoredForm(validEmail, MaxEmailLength);
    ToLowerIdempotent(validEmail);
    Ok(UserRow(id, ToLower(validEmail), validHash, validRole, true, createdAt.GetOr(now)))
  }

  /** The row after `UpdatePasswordHash(passwordHash)`. */
  function PasswordHashUpdated(u: UserRow, passwordHash: string): (r: Result<UserRow>)
    ensures r.Ok? <==> ValidatePasswordHash(passwordHash).Ok?
    ensures r.Ok? ==> r.value == u.(passwordHash := Trim(passwordHash))
    ensures r.Ok? && UserWellFormed(u) ==> UserWellFormed(r.value)
  {
    var validHash :- ValidatePasswordHash(passwordHash);
    Ok(u.(passwordHash := validHash))
  }

  class AppUser {
    var Id: Guid
    var Email: string
    var PasswordHash: string
    var Role: string
    var IsActive: bool
    var CreatedAt: Instant

    function Row(): UserRow
      reads this
    {
      UserRow(Id, Email, PasswordHash, Role, IsActive, CreatedAt)
    }

    constructor Init(row: UserRow)
      ensures Row() == row
    {
      Id := row.id;
      Email := row.email;
      PasswordHash := row.passwordHash;
      Role := row.role;
      IsActive := row.isActive;
      CreatedAt := row.createdAt;
    }

    static method Create(id: Guid, email: string, passwordHash: string, role: string,
                         createdAt: Option<Instant>, now: Instant) returns (r: Result<AppUser>)
      ensures r.Ok? <==> NewUser(id, email, passwordHash, role, createdAt, now).Ok?
      ensures r.Ok? ==> fresh(r.value) && r.value.Row() == NewUser(id, email, passwordHash, role, createdAt, now).value
      ensures r.Fail? ==> r.error == NewUser(id, email, passwordHash, role, createdAt, now).error
    {
      var row := NewUser(id, email, passwordHash, role, createdAt, now);
      if row.Fail? {
        return Fail(row.error);
      }
      var user := new AppUser.Init(row.value);
      return Ok(user);
    }

    method UpdatePasswordHash(passwordHash: string) returns (r: Result<()>)
      modifies this
      ensures r.Ok? <==> PasswordHashUpdated(old(Row()), passwordHash).Ok?
      ensures r.Ok? ==> Row() == PasswordHashUpdated(old(Row()), passwordHash).value
      ensures r.Fail? ==> Row() == old(Row()) && r.error == ValidatePasswordHash(passwordHash).error
    {
      var validHash := ValidatePasswordHash(passwordHash);
      if validHash.Fail? {
        return Fail(validHash.error);
      }
      PasswordHash := validHash.value;
      return Ok(());
    }

    method Deactivate()
      modifies this
      ensures Row() == old(Row()).(isActive := false)
    {
      IsActive := false;
    }

    method Activate()
      modifies this
      ensures Row() == old(Row()).(isActive := true)
    {
      IsActive := true;
    }
  }

  // ----------------------------------------------------------- RefreshToken

  datatype TokenRow = TokenRow(
    id: Guid,
    userId: Guid,
    tokenHash: string,
    expiresAt: Instant,
    createdAt: Instant,
    revokedAt: Option<Instant>,
    createdByIp: Option<string>)

  predicate TokenWellFormed(t: TokenRow) {
    && t.userId != EmptyGuid
    && StoredForm(t.tokenHash, MaxTokenHashLength)
    && (t.createdByIp.Some? ==> t.createdByIp.value != [] && IsTrimmed(t.createdByIp.value))
  }

  function ValidateTokenHash(tokenHash: string): Result<string> {
    ValidateRequired(tokenHash, "tokenHash", MaxTokenHashLength)
  }

  /** How the client address is recorded: absent when missing or blank, trimmed otherwise. */
  function NormalizeIp(ip: Option<string>): (r: Option<string>)
    ensures r.None? <==> ip.None? || IsBlank(ip.value)
    ensures r.Some? ==> r.value == Trim(ip.value) && r.value != [] && IsTrimmed(r.value)
  {
    if ip.None? || IsBlank(ip.value) then None
    else
      TrimIdempotent(ip.value);
      Some(Trim(ip.value))
  }

  /** The constructor `RefreshToken(userId, tokenHash, expiresAt, createdByIp)`;
      the creation time is always the clock reading `now`. */
  function NewToken(id: Guid, userId: Guid, tokenHash: string, expiresAt: Instant,
                    createdByIp: Option<string>, now: Instant): (r: Result<TokenRow>)
    ensures userId == EmptyGuid ==> r == Fail(DomainRule("userId is required."))
    ensures r.Ok? <==> userId != EmptyGuid && ValidateTokenHash(tokenHash).Ok?
    ensures userId != EmptyGuid && ValidateTokenHash(tokenHash).Fail? ==>
      r == Fail(FieldError(tokenHash, "tokenHash", MaxTokenHashLength))
    ensures r.Fail? ==> r.error.DomainRule?
    ensures r.Ok? ==>
      && TokenWellFormed(r.value)
      && r.value == TokenRow(id, userId, Trim(tokenHash), expiresAt, now, None, NormalizeIp(createdByIp))
  {
    if userId == EmptyGuid then
      Fail(DomainRule("userId is required."))
    else
      var validHash :- ValidateTokenHash(tokenHash);
      Ok(TokenRow(id, userId, validHash, expiresAt, now, None, NormalizeIp(createdByIp)))
  }

  /** `IsRevoked`: a revocation time has been recorded. */
  predicate IsRevoked(t: TokenRow) {
    t.revokedAt.Some?
  }

  /** `IsExpired(utcNow)`: the expiry instant itself already counts as expired. */
  predicate IsExpired(t: TokenRow, utcNow: Instant) {
    utcNow >= t.expiresAt
  }

  /** A token that a refresh may still use. */
  predicate IsUsable(t: TokenRow, utcNow: Instant) {
    !IsRevoked(t) && !IsExpired(t, utcNow)
  }

  /** The row after `Revoke(revokedAt)`: the time is overwritten even on a token already revoked. */
  function Revoked(t: TokenRow, revokedAt: Option<Instant>, now: Instant): (r: TokenRow)
    ensures IsRevoked(r) && r.revokedAt == Some(revokedAt.GetOr(now))
    ensures r == t.(revokedAt := r.revokedAt)
    ensures forall utcNow :: !IsUsable(r, utcNow)
    ensures TokenWellFormed(t) ==> TokenWellFormed(r)
  {
    t.(revokedAt := Some(revokedAt.GetOr(now)))
  }

  /** Once expired, a token stays expired as time goes on. */
  lemma ExpiryIsMonotone(t: TokenRow, earlier: Instant, later: Instant)
    requires earlier <= later && IsExpired(t, earlier)
    ensures IsExpired(t, later) && !IsUsable(t, later)
  {
  }

  class RefreshToken {
    var Id: Guid
    var UserId: Guid
    var TokenHash: string
    var ExpiresAt: Instant
    var CreatedAt: Instant
    var RevokedAt: Option<Instant>
    var CreatedByIp: Option<string>

    function Row(): TokenRow
      reads this
    {
      TokenRow(Id, UserId, TokenHash, ExpiresAt, CreatedAt, RevokedAt, CreatedByIp)
    }

    constructor Init(row: TokenRow)
      ensures Row() == row
    {
      Id := row.id;
      UserId := row.userId;
      TokenHash := row.tokenHash;
      ExpiresAt := row.expiresAt;
      CreatedAt := row.createdAt;
      RevokedAt := row.revokedAt;
      CreatedByIp := row.createdByIp;
    }

    static method Create(id: Guid, userId: Guid, tokenHash: string, expiresAt: Instant,
                         createdByIp: Option<string>, now: Instant) returns (r: Result<RefreshToken>)
      ensures r.Ok? <==> NewToken(id, userId, tokenHash, expiresAt, createdByIp, now).Ok?
      ensures r.Ok? ==> fresh(r.value) && r.value.Row() == NewToken(id, userId, tokenHash, expiresAt, createdByIp, now).value
      ensures r.Fail? ==> r.error == NewToken(id, userId, tokenHash, expiresAt, createdByIp, now).error
    {
      var row := NewToken(id, userId, tokenHash, expiresAt, createdByIp, now);
      if row.Fail? {
        return Fail(row.error);
      }
      var token := new RefreshToken.Init(row.value);
      return Ok(token);
    }

    method Revoke(revokedAt: Option<Instant>, now: Instant)
      modifies this
      ensures Row() == Revoked(old(Row()), revokedAt, now)
    {
      RevokedAt := Some(revokedAt.GetOr(now));
    }
  }
}
