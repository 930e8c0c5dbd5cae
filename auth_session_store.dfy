/** The browser's login session: the access token and the user, kept in
    memory and mirrored in local storage under `devboard.session` so that a
    reload restores them. `User` is the type of the signed-in user's profile. */
module AuthSessionStore {
  import opened Common

  /** The stored entry as read back: either field may be missing. */
  datatype PersistedSession<User> = PersistedSession(accessToken: Option<string>, user: Option<User>)

  /** `!!token` */
  predicate HasToken(token: Option<string>) {
    token.Some? && token.value != []
  }

  /** Whether a stored entry is complete enough to sign the user back in. */
  predicate Restorable<User>(entry: Option<PersistedSession<User>>) {
    entry.Some? && HasToken(entry.value.accessToken) && entry.value.user.Some?
  }

  class SessionStore<User> {
    var accessToken: Option<string>
    var user: Option<User>
    /** The `devboard.session` entry of local storage. */
    var persisted: Option<PersistedSession<User>>

    /** `isAuthenticated` */
    predicate IsAuthenticated()
      reads this
    {
      HasToken(accessToken)
    }

    /** The constructor: a complete stored session is restored; anything else is ignored and the store starts signed out. */
    constructor (stored: Option<PersistedSession<User>>)
      ensures persisted == stored
      ensures Restorable(stored) ==> accessToken == stored.value.accessToken && user == stored.value.user
      ensures !Restorable(stored) ==> accessToken.None? && user.None?
      ensures IsAuthenticated() <==> Restorable(stored)
    {
      persisted := stored;
      if Restorable(stored) {
        accessToken := stored.value.accessToken;
        user := stored.value.user;
      } else {
        accessToken := None;
        user := None;
      }
    }

    /** `setSession(accessToken, user)`: kept in memory and stored. */
    method SetSession(token: string, u: User)
      modifies this
      ensures accessToken == Some(token) && user == Some(u)
      ensures persisted == Some(PersistedSession(Some(token), Some(u)))
      ensures IsAuthenticated() <==> token != []
    {
      accessToken := Some(token);
      user := Some(u);
      persisted := Some(PersistedSession(Some(token), Some(u)));
    }

    /** `clearSession()`: forgotten in memory and removed from storage. */
    method ClearSession()
      modifies this
      ensures accessToken.None? && user.None? && persisted.None?
      ensures !IsAuthenticated()
    {
      accessToken := None;
      user := None;
      persisted := None;
    }
  }

  /** A session that was set is restored on reload, exactly when its token is
      non-empty; a cleared session never is. */
  lemma ReloadRestoresSession<User>(token: string, u: User)
    ensures Restorable(Some(PersistedSession(Some(token), Some(u)))) <==> token != []
    ensures !Restorable<User>(None)
  {
  }
}
