/** `AuthService`: registration, login, refresh-token rotation and revocation
    over the Users and RefreshTokens tables. Password hashing, SHA-256, the
    token issuer and the clock are parameters. */
module Auth {
  import opened Common
  import opened Text
  import opened Tables
  import opened Encoding
  import opened Users
  import opened Persistence

  /** The role every registered account receives. */
  const DefaultUserRole: string := "Member"

  lemma MemberRoleIsTrimmed()
    ensures Trim(DefaultUserRole) == DefaultUserRole
  {
    TrimOfTrimmed(DefaultUserRole);
  }

  /** `DateTime.AddDays(1)`, in ticks of 100 nanoseconds. */
  const TicksPerDay: int := 864_000_000_000

  /** `SHA256.HashData`. */
  type Sha256 = seq<Byte> -> seq<Byte>
  /** `IPasswordHasher.HashPassword`. */
  type PasswordHash = string -> string
  /** `IPasswordHasher.VerifyPassword(password, hash)`. */
  type PasswordCheck = (string, string) -> bool

  /** What `IJwtTokenService` issues for one session: the signed access token
      with its expiry, and a new random refresh token. */
  datatype Issued = Issued(accessToken: string, accessTokenExpiresAt: Instant, refreshToken: string)

  /** `AuthSession`, returned to the client. */
  datatype AuthSession = AuthSession(
    userId: Guid,
    email: string,
    role: string,
    accessToken: string,
    accessTokenExpiresAt: Instant,
    refreshToken: string,
    refreshTokenExpiresAt: Instant)

  /** What an operation does: its outcome and the two tables afterwards. */
  datatype AuthOutcome<T> = AuthOutcome(result: Result<T>, users: seq<UserRow>, tokens: seq<TokenRow>)

  /** The unique keys of the two tables. */
  predicate TablesValid(users: seq<UserRow>, tokens: seq<TokenRow>) {
    && NoDuplicates(Keys(users, UserId)) && NoDuplicates(Keys(users, UserEmail))
    && NoDuplicates(Keys(tokens, TokenId)) && NoDuplicates(Keys(tokens, TokenHashKey))
  }

  /** Every refresh token belongs to an account in the Users table. */
  predicate TokensOwned(users: seq<UserRow>, tokens: seq<TokenRow>) {
    forall j :: 0 <= j < |tokens| ==> tokens[j].userId in Keys(users, UserId)
  }

  // ------------------------------------------------------------ NormalizeEmail

  /** `NormalizeEmail(email)`: a blank address is refused; otherwise it is
      trimmed and lower-cased. */
  function NormalizeEmail(email: string): (r: Result<string>)
    ensures r.Fail? <==> IsBlank(email)
    ensures r.Fail? ==> r.error == InvalidOperation("Email is required.")
    ensures r.Ok? ==> r.value != [] && IsTrimmed(r.value) && ToLower(r.value) == r.value
  {
    if IsBlank(email) then
      Fail(InvalidOperation("Email is required."))
    else
      var trimmed := Trim(email);
      TrimIdempotent(email);
      ToLowerKeepsStoredForm(trimmed, |trimmed|);
      ToLowerIdempotent(trimmed);
      Ok(ToLower(trimmed))
  }

  /** A normalized address normalizes to itself. */
  lemma NormalizeEmailIdempotent(email: string)
    requires NormalizeEmail(email).Ok?
    ensures NormalizeEmail(NormalizeEmail(email).value) == NormalizeEmail(email)
  {
    var n := NormalizeEmail(email).value;
    TrimOfTrimmed(n);
  }

  /** Two addresses name the same account exactly when they agree after
      trimming, ignoring letter case. */
  lemma SameAccountEmail(a: string, b: string)
    requires !IsBlank(a) && !IsBlank(b)
    ensures NormalizeEmail(a) == NormalizeEmail(b) <==> EqualsIgnoreCase(Trim(a), Trim(b))
  {
  }

  // ----------------------------------------------------------------- HashToken

  /** `HashToken(token)`: a blank token is refused; otherwise the upper-case
      hexadecimal SHA-256 digest of the UTF-8 bytes of the trimmed token. */
  function HashToken(sha: Sha256, token: string): (r: Result<string>)
    ensures r.Fail? <==> IsBlank(token)
    ensures r.Fail? ==> r.error == InvalidOperation("Refresh token is required.")
    ensures r.Ok? ==> IsTrimmed(r.value)
  {
    if IsBlank(token) then
      Fail(InvalidOperation("Refresh token is required."))
    else
      HexUpperIsTrimmed(sha(Utf8(Trim(token))));
      Ok(HexUpper(sha(Utf8(Trim(token)))))
  }

  /** With a collision-free digest, two tokens have the same stored hash
      exactly when they are the same after trimming. */
  lemma HashTokenIdentifies(sha: Sha256, a: string, b: string)
    requires forall x, y :: sha(x) == sha(y) ==> x == y
    requires !IsBlank(a) && !IsBlank(b)
    ensures HashToken(sha, a) == HashToken(sha, b) <==> Trim(a) == Trim(b)
  {
    if HashToken(sha, a) == HashToken(sha, b) {
      var da, db := sha(Utf8(Trim(a))), sha(Utf8(Trim(b)));
      LowerOfHexUpper(da);
      LowerOfHexUpper(db);
      HexLowerInjective(da, db);
      Utf8Injective(Trim(a), Trim(b));
    }
  }

  // ------------------------------------------------------------------ sessions

  /** `utcNow.AddDays(refreshTokenDays)`. */
  function RefreshExpiry(now: Instant, refreshTokenDays: int): Instant {
    now + refreshTokenDays * TicksPerDay
  }

  /** `CreateSession(user, ipAddress)`: the session is the user's, carries the
      issued tokens, and its refresh token expires the configured number of
      days after `now`. */
  function CreateSession(user: UserRow, issued: Issued, now: Instant, refreshTokenDays: int): (r: AuthSession)
    ensures r.userId == user.id && r.email == user.email && r.role == user.role
    ensures r.accessToken == issued.accessToken && r.accessTokenExpiresAt == issued.accessTokenExpiresAt
    ensures r.refreshToken == issued.refreshToken
    ensures refreshTokenDays > 0 <==> now < r.refreshTokenExpiresAt
  {
    AuthSession(user.id, user.email, user.role, issued.accessToken, issued.accessTokenExpiresAt,
                issued.refreshToken, RefreshExpiry(now, refreshTokenDays))
  }

  /** `new RefreshToken(userId, HashToken(session.RefreshToken), session.RefreshTokenExpiresAt, ipAddress)`:
      the table stores the digest, never the token itself. */
  function IssueToken(sha: Sha256, tokenId: Guid, userId: Guid, session: AuthSession, ip: Option<string>,
                      now: Instant): (r: Result<TokenRow>)
    ensures r.Ok? ==>
      && HashToken(sha, session.refreshToken).Ok?
      && r.value == TokenRow(tokenId, userId, HashToken(sha, session.refreshToken).value,
                             session.refreshTokenExpiresAt, now, None, NormalizeIp(ip))
      && TokenWellFormed(r.value)
  {
    var hash :- HashToken(sha, session.refreshToken);
    TrimOfTrimmed(hash);
    NewToken(tokenId, userId, hash, session.refreshTokenExpiresAt, ip, now)
  }

  /** The rows an operation adds: an account when it registers one. */
  function Added(added: Option<UserRow>): seq<UserRow> {
    if added.Some? then [added.value] else []
  }

  /** Adding an account whose id and address are new keeps both keys unique. */
  lemma AddedFresh(users: seq<UserRow>, added: Option<UserRow>)
    requires NoDuplicates(Keys(users, UserId)) && NoDuplicates(Keys(users, UserEmail))
    requires added.Some? ==> added.value.id !in Keys(users, UserId) && added.value.email !in Keys(users, UserEmail)
    ensures NoDuplicates(Keys(users + Added(added), UserId)) && NoDuplicates(Keys(users + Added(added), UserEmail))
  {
    if added.Some? {
      AppendFresh(users, UserId, added.value);
      AppendFresh(users, UserEmail, added.value);
    } else {
      assert users + Added(added) == users;
    }
  }

  /** `SaveChangesAsync` after the rows of a session were staged: the token
      table becomes `staged` plus the new token, and the new account, if any,
      is added. The save fails on a fault outside the model or on a repeated
      key, and then nothing is stored. */
  function Commit<T>(users: seq<UserRow>, tokens: seq<TokenRow>, staged: seq<TokenRow>, added: Option<UserRow>,
                     token: TokenRow, result: T, saveFault: Option<Error>)
    : (e: AuthOutcome<T>)
    requires TablesValid(users, tokens)
    requires Keys(staged, TokenId) == Keys(tokens, TokenId) && Keys(staged, TokenHashKey) == Keys(tokens, TokenHashKey)
    requires added.Some? ==> added.value.email !in Keys(users, UserEmail)
    ensures TablesValid(e.users, e.tokens)
    ensures e.result.Fail? ==> e.users == users && e.tokens == tokens
    ensures e.result.Ok? ==> e.result == Ok(result) && e.users == users + Added(added) && e.tokens == staged + [token]
  {
    var clash := (added.Some? && added.value.id in Keys(users, UserId))
                 || token.id in Keys(tokens, TokenId) || token.tokenHash in Keys(tokens, TokenHashKey);
    match SaveFault(saveFault, clash)
    case Some(err) => AuthOutcome(Fail(err), users, tokens)
    case None =>
      AddedFresh(users, added);
      AppendFresh(staged, TokenId, token);
      AppendFresh(staged, TokenHashKey, token);
      AuthOutcome(Ok(result), users + Added(added), staged + [token])
  }

  // ------------------------------------------------------------------ Register

  /** `RegisterAsync(request, ipAddress)`. */
  function RegisterPlan(users: seq<UserRow>, tokens: seq<TokenRow>, hashPassword: PasswordHash, sha: Sha256,
                        refreshTokenDays: int, email: string, password: string, ip: Option<string>,
                        userId: Guid, tokenId: Guid, issued: Issued, now: Instant, saveFault: Option<Error>)
    : (e: AuthOutcome<AuthSession>)
    requires TablesValid(users, tokens)
    ensures TablesValid(e.users, e.tokens)
    ensures e.result.Fail? ==> e.users == users && e.tokens == tokens
  {
    match NormalizeEmail(email)
    case Fail(err) => AuthOutcome(Fail(err), users, tokens)
    case Ok(normalized) =>
      if normalized in Keys(users, UserEmail) then
        AuthOutcome(Fail(InvalidOperation("Email is already registered.")), users, tokens)
      else
        match NewUser(userId, normalized, hashPassword(password), DefaultUserRole, None, now)
        case Fail(err) => AuthOutcome(Fail(err), users, tokens)
        case Ok(user) =>
          var session := CreateSession(user, issued, now, refreshTokenDays);
          match IssueToken(sha, tokenId, user.id, session, ip, now)
          case Fail(err) => AuthOutcome(Fail(err), users, tokens)
          case Ok(token) =>
            TrimOfTrimmed(normalized);
            Commit(users, tokens, tokens, Some(user), token, session, saveFault)
  }

  /** An address already registered, in any letter case and with any padding,
      is refused and nothing is stored. */
  lemma RegisterRefusesTakenEmail(users: seq<UserRow>, tokens: seq<TokenRow>, hashPassword: PasswordHash,
                                  sha: Sha256, refreshTokenDays: int, email: string, password: string,
                                  ip: Option<string>, userId: Guid, tokenId: Guid, issued: Issued, now: Instant,
                                  saveFault: Option<Error>, k: nat)
    requires TablesValid(users, tokens)
    requires k < |users| && !IsBlank(email) && users[k].email == ToLower(Trim(email))
    ensures RegisterPlan(users, tokens, hashPassword, sha, refreshTokenDays, email, password, ip, userId, tokenId,
                         issued, now, saveFault)
            == AuthOutcome(Fail(InvalidOperation("Email is already registered.")), users, tokens)
  {
    assert Keys(users, UserEmail)[k] == ToLower(Trim(email));
  }

  /** A successful registration passed the address checks and commits
      exactly one active `Member` account, under the normalized address with
      the hashed password, and the refresh token issued for that account's
      new session: the table stores the token's digest, with the session's
      expiry. */
  lemma RegisterCreatesAccount(users: seq<UserRow>, tokens: seq<TokenRow>, hashPassword: PasswordHash,
                     sha: Sha256, refreshTokenDays: int, email: string, password: string,
                     ip: Option<string>, userId: Guid, tokenId: Guid, issued: Issued, now: Instant,
                     saveFault: Option<Error>)
    requires TablesValid(users, tokens)
    requires RegisterPlan(users, tokens, hashPassword, sha, refreshTokenDays, email, password, ip, userId, tokenId,
                          issued, now, saveFault).result.Ok?
    ensures NormalizeEmail(email).Ok? && NormalizeEmail(email).value !in Keys(users, UserEmail)
    ensures
      var user := UserRow(userId, NormalizeEmail(email).value, Trim(hashPassword(password)), DefaultUserRole,
                          true, now);
      var session := CreateSession(user, issued, now, refreshTokenDays);
      && IssueToken(sha, tokenId, userId, session, ip, now).Ok?
      && RegisterPlan(users, tokens, hashPassword, sha, refreshTokenDays, email, password, ip, userId, tokenId,
                      issued, now, saveFault)
         == Commit(users, tokens, tokens, Some(user), IssueToken(sha, tokenId, userId, session, ip, now).value,
                   session, saveFault)
  {
    var n := NormalizeEmail(email).value;
    assert NewUser(userId, n, hashPassword(password), DefaultUserRole, None, now).Ok?;
    TrimOfTrimmed(n);
    MemberRoleIsTrimmed();
  }

  // --------------------------------------------------------------------- Login

  /** `LoginAsync(request, ipAddress)`. */
  function LoginPlan(users: seq<UserRow>, tokens: seq<TokenRow>, verify: PasswordCheck, sha: Sha256,
                     refreshTokenDays: int, email: string, password: string, ip: Option<string>,
                     tokenId: Guid, issued: Issued, now: Instant, saveFault: Option<Error>)
    : (e: AuthOutcome<AuthSession>)
    requires TablesValid(users, tokens)
    ensures TablesValid(e.users, e.tokens)
    ensures e.users == users
    ensures e.result.Fail? ==> e.tokens == tokens
  {
    match NormalizeEmail(email)
    case Fail(err) => AuthOutcome(Fail(err), users, tokens)
    case Ok(normalized) =>
      match IndexOf(Keys(users, UserEmail), normalized)
      case None => AuthOutcome(Fail(InvalidOperation("Invalid credentials.")), users, tokens)
      case Some(k) =>
        var user := users[k];
        if !user.isActive || !verify(password, user.passwordHash) then
          AuthOutcome(Fail(InvalidOperation("Invalid credentials.")), users, tokens)
        else
          var session := CreateSession(user, issued, now, refreshTokenDays);
          match IssueToken(sha, tokenId, user.id, session, ip, now)
          case Fail(err) => AuthOutcome(Fail(err), users, tokens)
          case Ok(token) => Commit(users, tokens, tokens, None, token, session, saveFault)
  }

  /** The account a login addresses and whether it may sign in. */
  predicate Admits(u: UserRow, verify: PasswordCheck, normalized: string, password: string) {
    u.email == normalized && u.isActive && verify(password, u.passwordHash)
  }

  /** An unknown address, a deactivated account and a wrong password all fail
      with the same message, so a caller cannot tell them apart; nothing is stored. */
  lemma LoginRefusalIsUniform(users: seq<UserRow>, tokens: seq<TokenRow>, verify: PasswordCheck, sha: Sha256,
                              refreshTokenDays: int, email: string, password: string, ip: Option<string>,
                              tokenId: Guid, issued: Issued, now: Instant, saveFault: Option<Error>)
    requires TablesValid(users, tokens) && !IsBlank(email)
    requires forall k :: 0 <= k < |users| ==> !Admits(users[k], verify, NormalizeEmail(email).value, password)
    ensures LoginPlan(users, tokens, verify, sha, refreshTokenDays, email, password, ip, tokenId, issued, now,
                      saveFault)
            == AuthOutcome(Fail(InvalidOperation("Invalid credentials.")), users, tokens)
  {
    var n := NormalizeEmail(email).value;
    match IndexOf(Keys(users, UserEmail), n)
    case None =>
    case Some(k) =>
      assert !Admits(users[k], verify, n, password);
  }

  /** A successful login is for the one active account with that address
      whose password matches: it adds one live refresh token for it and
      changes no account. */
  lemma LoginIssuesToken(users: seq<UserRow>, tokens: seq<TokenRow>, verify: PasswordCheck, sha: Sha256,
                         refreshTokenDays: int, email: string, password: string, ip: Option<string>,
                         tokenId: Guid, issued: Issued, now: Instant, saveFault: Option<Error>)
    requires TablesValid(users, tokens)
    requires LoginPlan(users, tokens, verify, sha, refreshTokenDays, email, password, ip, tokenId, issued, now,
                       saveFault).result.Ok?
    ensures
      var e := LoginPlan(users, tokens, verify, sha, refreshTokenDays, email, password, ip, tokenId, issued, now,
                         saveFault);
      && NormalizeEmail(email).Ok?
      && IndexOf(Keys(users, UserEmail), NormalizeEmail(email).value).Some?
      && var k := IndexOf(Keys(users, UserEmail), NormalizeEmail(email).value).value;
      && Admits(users[k], verify, NormalizeEmail(email).value, password)
      && (forall j :: 0 <= j < |users| && j != k ==> users[j].email != NormalizeEmail(email).value)
      && e.result.value == CreateSession(users[k], issued, now, refreshTokenDays)
      && HashToken(sha, issued.refreshToken).Ok?
      && e.tokens == tokens + [TokenRow(tokenId, users[k].id, HashToken(sha, issued.refreshToken).value,
                                        RefreshExpiry(now, refreshTokenDays), now, None, NormalizeIp(ip))]
  {
    var e := LoginPlan(users, tokens, verify, sha, refreshTokenDays, email, password, ip, tokenId, issued, now,
                       saveFault);
    assert NormalizeEmail(email).Ok?;
    var n := NormalizeEmail(email).value;
    assert IndexOf(Keys(users, UserEmail), n).Some?;
    var k := IndexOf(Keys(users, UserEmail), n).value;
    assert users[k].isActive && verify(password, users[k].passwordHash);
    var session := CreateSession(users[k], issued, now, refreshTokenDays);
    assert IssueToken(sha, tokenId, users[k].id, session, ip, now).Ok?;
    var token := IssueToken(sha, tokenId, users[k].id, session, ip, now).value;
    assert e == Commit(users, tokens, tokens, None, token, session, saveFault);
    assert e.tokens == tokens + [token];
    assert token == TokenRow(tokenId, users[k].id, HashToken(sha, issued.refreshToken).value,
                             RefreshExpiry(now, refreshTokenDays), now, None, NormalizeIp(ip));
    forall j | 0 <= j < |users| && j != k
      ensures users[j].email != n
    {
      assert Keys(users, UserEmail)[j] == users[j].email;
      assert Keys(users, UserEmail)[k] == n;
    }
  }

  // ------------------------------------------------------------------- Refresh

  /** `RefreshAsync(refreshToken, ipAddress)`: the token presented must be
      stored, unrevoked and unexpired, and its account active; it is revoked
      and replaced by a new one for the same account. The tasks query joins
      the account, so a token without one is not found. */
  function RefreshPlan(users: seq<UserRow>, tokens: seq<TokenRow>, sha: Sha256, refreshTokenDays: int,
                       refreshToken: string, ip: Option<string>, tokenId: Guid, issued: Issued, now: Instant,
                       saveFault: Option<Error>)
    : (e: AuthOutcome<AuthSession>)
    requires TablesValid(users, tokens)
    ensures TablesValid(e.users, e.tokens)
    ensures e.users == users
    ensures e.result.Fail? ==> e.tokens == tokens
  {
    match HashToken(sha, refreshToken)
    case Fail(err) => AuthOutcome(Fail(err), users, tokens)
    case Ok(hash) =>
      match IndexOf(Keys(tokens, TokenHashKey), hash)
      case None => AuthOutcome(Fail(InvalidOperation("Invalid refresh token.")), users, tokens)
      case Some(i) => RotateStored(users, tokens, sha, refreshTokenDays, i, ip, tokenId, issued, now, saveFault)
  }

  /** The rest of `RefreshAsync` once the stored token `tokens[i]` was found. */
  function RotateStored(users: seq<UserRow>, tokens: seq<TokenRow>, sha: Sha256, refreshTokenDays: int, i: nat,
                        ip: Option<string>, tokenId: Guid, issued: Issued, now: Instant, saveFault: Option<Error>)
    : (e: AuthOutcome<AuthSession>)
    requires TablesValid(users, tokens) && i < |tokens|
    ensures TablesValid(e.users, e.tokens)
    ensures e.users == users
    ensures e.result.Fail? ==> e.tokens == tokens
  {
    var stored := tokens[i];
    if IsRevoked(stored) || IsExpired(stored, now) then
      AuthOutcome(Fail(InvalidOperation("Invalid refresh token.")), users, tokens)
    else
      match FindUser(users, stored.userId)
      case None => AuthOutcome(Fail(InvalidOperation("Invalid refresh token.")), users, tokens)
      case Some(user) =>
        if !user.isActive then
          AuthOutcome(Fail(InvalidOperation("User is inactive.")), users, tokens)
        else
          var session := CreateSession(user, issued, now, refreshTokenDays);
          match IssueToken(sha, tokenId, stored.userId, session, ip, now)
          case Fail(err) => AuthOutcome(Fail(err), users, tokens)
          case Ok(token) =>
            ReplaceKeepingKey(tokens, TokenId, i, Revoked(stored, None, now));
            ReplaceKeepingKey(tokens, TokenHashKey, i, Revoked(stored, None, now));
            Commit(users, tokens, tokens[i := Revoked(stored, None, now)], None, token, session, saveFault)
  }

  /** What a successful rotation of `tokens[i]` did. */
  lemma RotateStoredRotates(users: seq<UserRow>, tokens: seq<TokenRow>, sha: Sha256, refreshTokenDays: int, i: nat,
                            ip: Option<string>, tokenId: Guid, issued: Issued, now: Instant, saveFault: Option<Error>)
    requires TablesValid(users, tokens) && i < |tokens|
    requires RotateStored(users, tokens, sha, refreshTokenDays, i, ip, tokenId, issued, now, saveFault).result.Ok?
    ensures
      var e := RotateStored(users, tokens, sha, refreshTokenDays, i, ip, tokenId, issued, now, saveFault);
      && IsUsable(tokens[i], now)
      && FindUser(users, tokens[i].userId).Some? && FindUser(users, tokens[i].userId).value.isActive
      && e.result.value == CreateSession(FindUser(users, tokens[i].userId).value, issued, now, refreshTokenDays)
      && HashToken(sha, issued.refreshToken).Ok?
      && e.tokens == tokens[i := tokens[i].(revokedAt := Some(now))]
                     + [TokenRow(tokenId, tokens[i].userId, HashToken(sha, issued.refreshToken).value,
                                 RefreshExpiry(now, refreshTokenDays), now, None, NormalizeIp(ip))]
  {
    var e := RotateStored(users, tokens, sha, refreshTokenDays, i, ip, tokenId, issued, now, saveFault);
    var stored := tokens[i];
    assert IsUsable(stored, now);
    assert FindUser(users, stored.userId).Some?;
    var user := FindUser(users, stored.userId).value;
    assert user.isActive;
    var session := CreateSession(user, issued, now, refreshTokenDays);
    assert IssueToken(sha, tokenId, stored.userId, session, ip, now).Ok?;
    var token := IssueToken(sha, tokenId, stored.userId, session, ip, now).value;
    var staged := tokens[i := Revoked(stored, None, now)];
    ReplaceKeepingKey(tokens, TokenId, i, Revoked(stored, None, now));
    ReplaceKeepingKey(tokens, TokenHashKey, i, Revoked(stored, None, now));
    assert e == Commit(users, tokens, staged, None, token, session, saveFault);
    assert e.tokens == staged + [token] && e.result == Ok(session);
    assert session.refreshToken == issued.refreshToken;
    assert session.refreshTokenExpiresAt == RefreshExpiry(now, refreshTokenDays);
    assert token == TokenRow(tokenId, stored.userId, HashToken(sha, issued.refreshToken).value,
                             session.refreshTokenExpiresAt, now, None, NormalizeIp(ip));
    assert Revoked(stored, None, now) == stored.(revokedAt := Some(now));
  }

  /** A token that is not stored, revoked or expired is refused with one
      message, and nothing changes. */
  lemma RefreshRefusesUnusable(users: seq<UserRow>, tokens: seq<TokenRow>, sha: Sha256, refreshTokenDays: int,
                               refreshToken: string, ip: Option<string>, tokenId: Guid, issued: Issued,
                               now: Instant, saveFault: Option<Error>)
    requires TablesValid(users, tokens) && !IsBlank(refreshToken)
    requires forall i :: 0 <= i < |tokens| && tokens[i].tokenHash == HashToken(sha, refreshToken).value ==>
               !IsUsable(tokens[i], now)
    ensures RefreshPlan(users, tokens, sha, refreshTokenDays, refreshToken, ip, tokenId, issued, now, saveFault)
            == AuthOutcome(Fail(InvalidOperation("Invalid refresh token.")), users, tokens)
  {
    var h := HashToken(sha, refreshToken).value;
    match IndexOf(Keys(tokens, TokenHashKey), h)
    case None =>
    case Some(i) =>
      assert tokens[i].tokenHash == h;
  }

  /** A usable token whose account has been deactivated is refused with its
      own message, and nothing changes. */
  lemma RefreshRefusesInactiveUser(users: seq<UserRow>, tokens: seq<TokenRow>, sha: Sha256, refreshTokenDays: int,
                                   refreshToken: string, ip: Option<string>, tokenId: Guid, issued: Issued,
                                   now: Instant, saveFault: Option<Error>, i: nat)
    requires TablesValid(users, tokens) && !IsBlank(refreshToken)
    requires i < |tokens| && tokens[i].tokenHash == HashToken(sha, refreshToken).value && IsUsable(tokens[i], now)
    requires FindUser(users, tokens[i].userId).Some? && !FindUser(users, tokens[i].userId).value.isActive
    ensures RefreshPlan(users, tokens, sha, refreshTokenDays, refreshToken, ip, tokenId, issued, now, saveFault)
            == AuthOutcome(Fail(InvalidOperation("User is inactive.")), users, tokens)
  {
    IndexOfUnique(Keys(tokens, TokenHashKey), i);
  }

  /** A successful refresh revokes, at `now`, exactly the stored token that
      was presented, which was usable and belongs to an active account, and
      appends one live token for the same account; the session is that
      account's. */
  lemma RefreshRotates(users: seq<UserRow>, tokens: seq<TokenRow>, sha: Sha256, refreshTokenDays: int,
                       refreshToken: string, ip: Option<string>, tokenId: Guid, issued: Issued, now: Instant,
                       saveFault: Option<Error>)
    requires TablesValid(users, tokens)
    requires RefreshPlan(users, tokens, sha, refreshTokenDays, refreshToken, ip, tokenId, issued, now,
                         saveFault).result.Ok?
    ensures
      var e := RefreshPlan(users, tokens, sha, refreshTokenDays, refreshToken, ip, tokenId, issued, now, saveFault);
      && HashToken(sha, refreshToken).Ok?
      && IndexOf(Keys(tokens, TokenHashKey), HashToken(sha, refreshToken).value).Some?
      && var i := IndexOf(Keys(tokens, TokenHashKey), HashToken(sha, refreshToken).value).value;
      && tokens[i].tokenHash == HashToken(sha, refreshToken).value
      && IsUsable(tokens[i], now)
      && FindUser(users, tokens[i].userId).Some? && FindUser(users, tokens[i].userId).value.isActive
      && e.result.value == CreateSession(FindUser(users, tokens[i].userId).value, issued, now, refreshTokenDays)
      && HashToken(sha, issued.refreshToken).Ok?
      && e.tokens == tokens[i := tokens[i].(revokedAt := Some(now))]
                     + [TokenRow(tokenId, tokens[i].userId, HashToken(sha, issued.refreshToken).value,
                                 RefreshExpiry(now, refreshTokenDays), now, None, NormalizeIp(ip))]
  {
    var h := HashToken(sha, refreshToken).value;
    var i := IndexOf(Keys(tokens, TokenHashKey), h).value;
    RotateStoredRotates(users, tokens, sha, refreshTokenDays, i, ip, tokenId, issued, now, saveFault);
  }

  /** With unique digests, a revoked row is the only one carrying its digest,
      so no usable row carries it. */
  lemma RevokedHashUnusable(tokens: seq<TokenRow>, i: nat, now: Instant)
    requires NoDuplicates(Keys(tokens, TokenHashKey)) && i < |tokens| && IsRevoked(tokens[i])
    ensures forall j :: 0 <= j < |tokens| && tokens[j].tokenHash == tokens[i].tokenHash ==> !IsUsable(tokens[j], now)
  {
    forall j | 0 <= j < |tokens| && tokens[j].tokenHash == tokens[i].tokenHash
      ensures !IsUsable(tokens[j], now)
    {
      assert Keys(tokens, TokenHashKey)[j] == Keys(tokens, TokenHashKey)[i];
    }
  }

  /** A refresh token works once: presenting it again after a successful
      refresh, at any later time and whatever else is supplied, is refused and
      changes nothing. */
  lemma RefreshTokenIsSingleUse(users: seq<UserRow>, tokens: seq<TokenRow>, sha: Sha256, refreshTokenDays: int,
                                refreshToken: string, ip: Option<string>, tokenId: Guid, issued: Issued,
                                now: Instant, saveFault: Option<Error>,
                                ip2: Option<string>, tokenId2: Guid, issued2: Issued, now2: Instant,
                                saveFault2: Option<Error>)
    requires TablesValid(users, tokens)
    requires RefreshPlan(users, tokens, sha, refreshTokenDays, refreshToken, ip, tokenId, issued, now,
                         saveFault).result.Ok?
    ensures
      var e := RefreshPlan(users, tokens, sha, refreshTokenDays, refreshToken, ip, tokenId, issued, now, saveFault);
      RefreshPlan(e.users, e.tokens, sha, refreshTokenDays, refreshToken, ip2, tokenId2, issued2, now2, saveFault2)
        == AuthOutcome(Fail(InvalidOperation("Invalid refresh token.")), e.users, e.tokens)
  {
    var e := RefreshPlan(users, tokens, sha, refreshTokenDays, refreshToken, ip, tokenId, issued, now, saveFault);
    RefreshRotates(users, tokens, sha, refreshTokenDays, refreshToken, ip, tokenId, issued, now, saveFault);
    var h := HashToken(sha, refreshToken).value;
    var i := IndexOf(Keys(tokens, TokenHashKey), h).value;
    assert e.tokens[i].tokenHash == h && IsRevoked(e.tokens[i]);
    RevokedHashUnusable(e.tokens, i, now2);
    RefreshRefusesUnusable(e.users, e.tokens, sha, refreshTokenDays, refreshToken, ip2, tokenId2, issued2, now2,
                           saveFault2);
  }

  // -------------------------------------------------------------------- Revoke

  /** `RevokeAsync(refreshToken)`: revoking a token that is not stored or is
      already revoked does nothing. */
  function RevokePlan(users: seq<UserRow>, tokens: seq<TokenRow>, sha: Sha256, refreshToken: string, now: Instant,
                      saveFault: Option<Error>)
    : (e: AuthOutcome<()>)
    requires TablesValid(users, tokens)
    ensures TablesValid(e.users, e.tokens)
    ensures e.users == users && |e.tokens| == |tokens|
    ensures e.result.Fail? ==> e.tokens == tokens
  {
    match HashToken(sha, refreshToken)
    case Fail(err) => AuthOutcome(Fail(err), users, tokens)
    case Ok(hash) =>
      match IndexOf(Keys(tokens, TokenHashKey), hash)
      case None => AuthOutcome(Ok(()), users, tokens)
      case Some(i) =>
        if IsRevoked(tokens[i]) then AuthOutcome(Ok(()), users, tokens)
        else
          match SaveFault(saveFault, false)
          case Some(err) => AuthOutcome(Fail(err), users, tokens)
          case None =>
            ReplaceKeepingKey(tokens, TokenId, i, Revoked(tokens[i], None, now));
            ReplaceKeepingKey(tokens, TokenHashKey, i, Revoked(tokens[i], None, now));
            AuthOutcome(Ok(()), users, tokens[i := Revoked(tokens[i], None, now)])
  }

  /** Revocation changes only the live token with the presented token's
      digest, which it marks revoked at `now`; every other token, and one
      already revoked, is left as it was. */
  lemma RevokeChangesOnlyPresented(users: seq<UserRow>, tokens: seq<TokenRow>, sha: Sha256, refreshToken: string,
                                   now: Instant, saveFault: Option<Error>)
    requires TablesValid(users, tokens)
    requires RevokePlan(users, tokens, sha, refreshToken, now, saveFault).result.Ok?
    ensures HashToken(sha, refreshToken).Ok?
    ensures
      var e := RevokePlan(users, tokens, sha, refreshToken, now, saveFault);
      forall j :: 0 <= j < |tokens| ==>
        e.tokens[j] == (if tokens[j].tokenHash == HashToken(sha, refreshToken).value && !IsRevoked(tokens[j])
                        then tokens[j].(revokedAt := Some(now))
                        else tokens[j])
  {
    var h := HashToken(sha, refreshToken).value;
    match IndexOf(Keys(tokens, TokenHashKey), h)
    case None =>
      forall j | 0 <= j < |tokens|
        ensures tokens[j].tokenHash != h
      {
        assert Keys(tokens, TokenHashKey)[j] == tokens[j].tokenHash;
      }
    case Some(i) =>
      forall j | 0 <= j < |tokens| && tokens[j].tokenHash == h
        ensures j == i
      {
        assert Keys(tokens, TokenHashKey)[j] == h;
      }
      var e := RevokePlan(users, tokens, sha, refreshToken, now, saveFault);
      if IsRevoked(tokens[i]) {
        assert e.tokens == tokens;
      } else {
        assert e.tokens == tokens[i := tokens[i].(revokedAt := Some(now))];
      }
  }

  /** After a successful revocation the token presented cannot refresh any more. */
  lemma RevokedTokenCannotRefresh(users: seq<UserRow>, tokens: seq<TokenRow>, sha: Sha256, refreshToken: string,
                                  now: Instant, saveFault: Option<Error>, refreshTokenDays: int,
                                  ip: Option<string>, tokenId: Guid, issued: Issued, now2: Instant,
                                  saveFault2: Option<Error>)
    requires TablesValid(users, tokens)
    requires RevokePlan(users, tokens, sha, refreshToken, now, saveFault).result.Ok?
    ensures
      var e := RevokePlan(users, tokens, sha, refreshToken, now, saveFault);
      RefreshPlan(e.users, e.tokens, sha, refreshTokenDays, refreshToken, ip, tokenId, issued, now2, saveFault2)
        == AuthOutcome(Fail(InvalidOperation("Invalid refresh token.")), e.users, e.tokens)
  {
    var e := RevokePlan(users, tokens, sha, refreshToken, now, saveFault);
    RevokeChangesOnlyPresented(users, tokens, sha, refreshToken, now, saveFault);
    var h := HashToken(sha, refreshToken).value;
    forall j | 0 <= j < |e.tokens| && e.tokens[j].tokenHash == h
      ensures !IsUsable(e.tokens[j], now2)
    {
      assert tokens[j].tokenHash == h;
    }
    RefreshRefusesUnusable(e.users, e.tokens, sha, refreshTokenDays, refreshToken, ip, tokenId, issued, now2,
                           saveFault2);
  }

  // ------------------------------------------------- the ownership invariant

  /** A row kept in place keeps its account in the key column. */
  lemma OwnedAfterAppend(users: seq<UserRow>, added: seq<UserRow>, id: Guid)
    requires id in Keys(users, UserId)
    ensures id in Keys(users + added, UserId)
  {
    var k :| 0 <= k < |users| && Keys(users, UserId)[k] == id;
    assert Keys(users + added, UserId)[k] == id;
  }

  /** Registration keeps every refresh token tied to an existing account: the
      new token belongs to the account stored with it. */
  lemma RegisterKeepsTokensOwned(users: seq<UserRow>, tokens: seq<TokenRow>, hashPassword: PasswordHash,
                                 sha: Sha256, refreshTokenDays: int, email: string, password: string,
                                 ip: Option<string>, userId: Guid, tokenId: Guid, issued: Issued, now: Instant,
                                 saveFault: Option<Error>)
    requires TablesValid(users, tokens) && TokensOwned(users, tokens)
    ensures
      var e := RegisterPlan(users, tokens, hashPassword, sha, refreshTokenDays, email, password, ip, userId,
                            tokenId, issued, now, saveFault);
      TokensOwned(e.users, e.tokens)
  {
    var e := RegisterPlan(users, tokens, hashPassword, sha, refreshTokenDays, email, password, ip, userId,
                          tokenId, issued, now, saveFault);
    if e.result.Ok? {
      RegisterCreatesAccount(users, tokens, hashPassword, sha, refreshTokenDays, email, password, ip, userId,
                             tokenId, issued, now, saveFault);
      var user := UserRow(userId, NormalizeEmail(email).value, Trim(hashPassword(password)), DefaultUserRole,
                          true, now);
      var session := CreateSession(user, issued, now, refreshTokenDays);
      var token := IssueToken(sha, tokenId, userId, session, ip, now).value;
      CommitKeepsTokensOwned(users, tokens, Some(user), token, session, saveFault);
    }
  }

  /** Committing a new token for the account being added, or for one already
      stored, keeps every token tied to an account. */
  lemma CommitKeepsTokensOwned<T>(users: seq<UserRow>, tokens: seq<TokenRow>, added: Option<UserRow>,
                                  token: TokenRow, result: T, saveFault: Option<Error>)
    requires TablesValid(users, tokens) && TokensOwned(users, tokens)
    requires added.Some? ==> added.value.email !in Keys(users, UserEmail)
    requires token.userId in Keys(users, UserId) || (added.Some? && token.userId == added.value.id)
    ensures
      var e := Commit(users, tokens, tokens, added, token, result, saveFault);
      TokensOwned(e.users, e.tokens)
  {
    var e := Commit(users, tokens, tokens, added, token, result, saveFault);
    if e.result.Ok? {
      forall j | 0 <= j < |e.tokens|
        ensures e.tokens[j].userId in Keys(e.users, UserId)
      {
        var id := e.tokens[j].userId;
        if id in Keys(users, UserId) {
          OwnedAfterAppend(users, Added(added), id);
        } else {
          assert Keys(e.users, UserId)[|users|] == id;
        }
      }
    }
  }

  /** Login issues its token only for the account it found. */
  lemma LoginKeepsTokensOwned(users: seq<UserRow>, tokens: seq<TokenRow>, verify: PasswordCheck, sha: Sha256,
                              refreshTokenDays: int, email: string, password: string, ip: Option<string>,
                              tokenId: Guid, issued: Issued, now: Instant, saveFault: Option<Error>)
    requires TablesValid(users, tokens) && TokensOwned(users, tokens)
    ensures
      var e := LoginPlan(users, tokens, verify, sha, refreshTokenDays, email, password, ip, tokenId, issued, now,
                         saveFault);
      TokensOwned(e.users, e.tokens)
  {
    var e := LoginPlan(users, tokens, verify, sha, refreshTokenDays, email, password, ip, tokenId, issued, now,
                       saveFault);
    if e.result.Ok? {
      LoginIssuesToken(users, tokens, verify, sha, refreshTokenDays, email, password, ip, tokenId, issued, now,
                       saveFault);
      var k := IndexOf(Keys(users, UserEmail), NormalizeEmail(email).value).value;
      assert Keys(users, UserId)[k] == users[k].id;
    }
  }

  /** Refresh issues the replacement token for the account of the token it revokes. */
  lemma RefreshKeepsTokensOwned(users: seq<UserRow>, tokens: seq<TokenRow>, sha: Sha256, refreshTokenDays: int,
                                refreshToken: string, ip: Option<string>, tokenId: Guid, issued: Issued,
                                now: Instant, saveFault: Option<Error>)
    requires TablesValid(users, tokens) && TokensOwned(users, tokens)
    ensures
      var e := RefreshPlan(users, tokens, sha, refreshTokenDays, refreshToken, ip, tokenId, issued, now, saveFault);
      TokensOwned(e.users, e.tokens)
  {
    var e := RefreshPlan(users, tokens, sha, refreshTokenDays, refreshToken, ip, tokenId, issued, now, saveFault);
    if e.result.Ok? {
      RefreshRotates(users, tokens, sha, refreshTokenDays, refreshToken, ip, tokenId, issued, now, saveFault);
      var i := IndexOf(Keys(tokens, TokenHashKey), HashToken(sha, refreshToken).value).value;
      OwnedAfterRotation(users, tokens, i, tokens[i].(revokedAt := Some(now)),
                         TokenRow(tokenId, tokens[i].userId, HashToken(sha, issued.refreshToken).value,
                                  RefreshExpiry(now, refreshTokenDays), now, None, NormalizeIp(ip)));
    }
  }

  /** Replacing a row by one of the same account and appending another of
      that account keeps every token owned. */
  lemma OwnedAfterRotation(users: seq<UserRow>, tokens: seq<TokenRow>, i: nat, revoked: TokenRow, token: TokenRow)
    requires TokensOwned(users, tokens) && i < |tokens|
    requires revoked.userId == tokens[i].userId && token.userId == tokens[i].userId
    ensures TokensOwned(users, tokens[i := revoked] + [token])
  {
    var after := tokens[i := revoked] + [token];
    forall j | 0 <= j < |after|
      ensures after[j].userId in Keys(users, UserId)
    {
      if j < |tokens| {
        assert after[j].userId == tokens[j].userId;
      } else {
        assert after[j].userId == tokens[i].userId;
      }
    }
  }

  /** Revocation adds no token and moves none to another account. */
  lemma RevokeKeepsTokensOwned(users: seq<UserRow>, tokens: seq<TokenRow>, sha: Sha256, refreshToken: string,
                               now: Instant, saveFault: Option<Error>)
    requires TablesValid(users, tokens) && TokensOwned(users, tokens)
    ensures
      var e := RevokePlan(users, tokens, sha, refreshToken, now, saveFault);
      TokensOwned(e.users, e.tokens)
  {
    var e := RevokePlan(users, tokens, sha, refreshToken, now, saveFault);
    if e.result.Ok? {
      RevokeChangesOnlyPresented(users, tokens, sha, refreshToken, now, saveFault);
      forall j | 0 <= j < |e.tokens|
        ensures e.tokens[j].userId in Keys(e.users, UserId)
      {
        assert e.tokens[j].userId == tokens[j].userId;
      }
    }
  }

  // ------------------------------------------------------------------ service

  class AuthService {
    const db: ApplicationDb
    const hashPassword: PasswordHash
    const verifyPassword: PasswordCheck
    const sha: Sha256
    /** `Jwt:RefreshTokenDays`. */
    const refreshTokenDays: int

    constructor (db: ApplicationDb, hashPassword: PasswordHash, verifyPassword: PasswordCheck, sha: Sha256,
                 refreshTokenDays: int)
      ensures this.db == db && this.hashPassword == hashPassword && this.verifyPassword == verifyPassword
      ensures this.sha == sha && this.refreshTokenDays == refreshTokenDays
    {
      this.db := db;
      this.hashPassword := hashPassword;
      this.verifyPassword := verifyPassword;
      this.sha := sha;
      this.refreshTokenDays := refreshTokenDays;
    }

    /** `SaveChangesAsync` on the staged rows. */
    method CommitRows<T>(staged: seq<TokenRow>, added: Option<UserRow>, token: TokenRow, result: T,
                         saveFault: Option<Error>) returns (r: Result<T>)
      requires db.Valid()
      requires Keys(staged, TokenId) == Keys(db.refreshTokens, TokenId)
      requires Keys(staged, TokenHashKey) == Keys(db.refreshTokens, TokenHashKey)
      requires added.Some? ==> added.value.email !in Keys(db.users, UserEmail)
      modifies db`users, db`refreshTokens
      ensures db.Valid()
      ensures
        var e := Commit(old(db.users), old(db.refreshTokens), staged, added, token, result, saveFault);
        r == e.result && db.users == e.users && db.refreshTokens == e.tokens
    {
      var clash := (added.Some? && added.value.id in Keys(db.users, UserId))
                   || token.id in Keys(db.refreshTokens, TokenId)
                   || token.tokenHash in Keys(db.refreshTokens, TokenHashKey);
      var fault := SaveFault(saveFault, clash);
      if fault.Some? {
        return Fail(fault.value);
      }
      AddedFresh(db.users, added);
      AppendFresh(staged, TokenId, token);
      AppendFresh(staged, TokenHashKey, token);
      db.users, db.refreshTokens := db.users + Added(added), staged + [token];
      return Ok(result);
    }

    method RegisterAsync(email: string, password: string, ip: Option<string>, userId: Guid, tokenId: Guid,
                         issued: Issued, now: Instant, saveFault: Option<Error>) returns (r: Result<AuthSession>)
      requires db.Valid()
      modifies db`users, db`refreshTokens
      ensures db.Valid()
      ensures
        var e := RegisterPlan(old(db.users), old(db.refreshTokens), hashPassword, sha, refreshTokenDays, email,
                              password, ip, userId, tokenId, issued, now, saveFault);
        r == e.result && db.users == e.users && db.refreshTokens == e.tokens
    {
      var normalized := NormalizeEmail(email);
      if normalized.Fail? {
        return Fail(normalized.error);
      }
      if normalized.value in Keys(db.users, UserEmail) {
        return Fail(InvalidOperation("Email is already registered."));
      }
      var user := NewUser(userId, normalized.value, hashPassword(password), DefaultUserRole, None, now);
      if user.Fail? {
        return Fail(user.error);
      }
      var session := CreateSession(user.value, issued, now, refreshTokenDays);
      var token := IssueToken(sha, tokenId, user.value.id, session, ip, now);
      if token.Fail? {
        return Fail(token.error);
      }
      TrimOfTrimmed(normalized.value);
      r := CommitRows(db.refreshTokens, Some(user.value), token.value, session, saveFault);
    }

    method LoginAsync(email: string, password: string, ip: Option<string>, tokenId: Guid, issued: Issued,
                      now: Instant, saveFault: Option<Error>) returns (r: Result<AuthSession>)
      requires db.Valid()
      modifies db`users, db`refreshTokens
      ensures db.Valid()
      ensures
        var e := LoginPlan(old(db.users), old(db.refreshTokens), verifyPassword, sha, refreshTokenDays, email, password,
                           ip, tokenId, issued, now, saveFault);
        r == e.result && db.users == e.users && db.refreshTokens == e.tokens
    {
      var normalized := NormalizeEmail(email);
      if normalized.Fail? {
        return Fail(normalized.error);
      }
      var found := IndexOf(Keys(db.users, UserEmail), normalized.value);
      if found.None? {
        return Fail(InvalidOperation("Invalid credentials."));
      }
      var user := db.users[found.value];
      if !user.isActive || !verifyPassword(password, user.passwordHash) {
        return Fail(InvalidOperation("Invalid credentials."));
      }
      var session := CreateSession(user, issued, now, refreshTokenDays);
      var token := IssueToken(sha, tokenId, user.id, session, ip, now);
      if token.Fail? {
        return Fail(token.error);
      }
      r := CommitRows(db.refreshTokens, None, token.value, session, saveFault);
    }

    method RefreshAsync(refreshToken: string, ip: Option<string>, tokenId: Guid, issued: Issued, now: Instant,
                        saveFault: Option<Error>) returns (r: Result<AuthSession>)
      requires db.Valid()
      modifies db`users, db`refreshTokens
      ensures db.Valid()
      ensures
        var e := RefreshPlan(old(db.users), old(db.refreshTokens), sha, refreshTokenDays, refreshToken, ip, tokenId,
                             issued, now, saveFault);
        r == e.result && db.users == e.users && db.refreshTokens == e.tokens
    {
      var hash := HashToken(sha, refreshToken);
      if hash.Fail? {
        return Fail(hash.error);
      }
      var found := IndexOf(Keys(db.refreshTokens, TokenHashKey), hash.value);
      if found.None? {
        return Fail(InvalidOperation("Invalid refresh token."));
      }
      var i := found.value;
      var stored := db.refreshTokens[i];
      if IsRevoked(stored) || IsExpired(stored, now) {
        return Fail(InvalidOperation("Invalid refresh token."));
      }
      var user := FindUser(db.users, stored.userId);
      if user.None? {
        return Fail(InvalidOperation("Invalid refresh token."));
      }
      if !user.value.isActive {
        return Fail(InvalidOperation("User is inactive."));
      }
      var session := CreateSession(user.value, issued, now, refreshTokenDays);
      var token := IssueToken(sha, tokenId, stored.userId, session, ip, now);
      if token.Fail? {
        return Fail(token.error);
      }
      var staged := db.refreshTokens[i := Revoked(stored, None, now)];
      ReplaceKeepingKey(db.refreshTokens, TokenId, i, Revoked(stored, None, now));
      ReplaceKeepingKey(db.refreshTokens, TokenHashKey, i, Revoked(stored, None, now));
      r := CommitRows(staged, None, token.value, session, saveFault);
    }

    method RevokeAsync(refreshToken: string, now: Instant, saveFault: Option<Error>) returns (r: Result<()>)
      requires db.Valid()
      modifies db`refreshTokens
      ensures db.Valid()
      ensures
        var e := RevokePlan(db.users, old(db.refreshTokens), sha, refreshToken, now, saveFault);
        r == e.result && db.refreshTokens == e.tokens
    {
      var hash := HashToken(sha, refreshToken);
      if hash.Fail? {
        return Fail(hash.error);
      }
      var found := IndexOf(Keys(db.refreshTokens, TokenHashKey), hash.value);
      if found.None? || IsRevoked(db.refreshTokens[found.value]) {
        return Ok(());
      }
      var fault := SaveFault(saveFault, false);
      if fault.Some? {
        return Fail(fault.value);
      }
      var i := found.value;
      var revoked := Revoked(db.refreshTokens[i], None, now);
      ReplaceKeepingKey(db.refreshTokens, TokenId, i, revoked);
      ReplaceKeepingKey(db.refreshTokens, TokenHashKey, i, revoked);
      db.refreshTokens := db.refreshTokens[i := revoked];
      return Ok(());
    }
  }
}
