/** The NextAuth callbacks: the route guard admits a signed-in user anywhere and an anonymous one
    only on paths starting with "/login"; the `jwt` callback copies the signed-in user's id and
    role into the token, and the `session` callback copies them from the token into the session. */
module AuthConfig {
  import opened Results
  import opened Text

  const LoginPath := "/login"

  /** `authorized`: `!!auth?.user` is `isLoggedIn`. */
  predicate Authorized(isLoggedIn: bool, pathname: string)
  {
    isLoggedIn || StartsWith(pathname, LoginPath)
  }

  /** A signed-in user may open any path. */
  lemma SignedInAuthorized(pathname: string)
    ensures Authorized(true, pathname)
  {
  }

  /** Without a user, exactly the paths that start with "/login" are open. */
  lemma AnonymousAuthorizedIff(pathname: string)
    ensures Authorized(false, pathname) <==> |pathname| >= 6 && pathname[..6] == "/login"
  {
  }

  /** The prefix test is not a path-segment test: "/loginx" is open too, "/" is not. */
  lemma LoginPrefixOnly()
    ensures Authorized(false, "/login") && Authorized(false, "/loginx") && Authorized(false, "/login/reset")
    ensures !Authorized(false, "/") && !Authorized(false, "/logi")
  {
    assert "/loginx"[..6] == "/login";
    assert "/login/reset"[..6] == "/login";
  }

  /** The user a sign-in hands to `jwt`: `id?: string`, `role: string`. */
  datatype AuthUser = AuthUser(id: Option<string>, role: string)

  /** The JWT: the two fields this configuration writes and the claims it leaves alone. */
  datatype Token = Token(id: Option<string>, role: Option<string>, claims: map<string, string>)

  datatype SessionUser = SessionUser(id: Option<string>, role: Option<string>, name: Option<string>, email: Option<string>)

  datatype AuthSession = AuthSession(user: SessionUser, expires: string)

  /** The `jwt` callback. */
  function Jwt(token: Token, user: Option<AuthUser>): Token
  {
    if user.Some? then token.(id := user.value.id, role := Some(user.value.role)) else token
  }

  /** The `session` callback; `as string` only tells the type checker. */
  function SessionOf(session: AuthSession, token: Token): AuthSession
  {
    session.(user := session.user.(id := token.id, role := token.role))
  }

  /** On sign-in the token takes the user's id and role and keeps its other claims; on every
      later call, without a user, it is returned as it came. */
  lemma JwtCopiesUser(token: Token, user: Option<AuthUser>)
    ensures user.Some? ==> Jwt(token, user).id == user.value.id && Jwt(token, user).role == Some(user.value.role)
    ensures Jwt(token, user).claims == token.claims
    ensures user.None? ==> Jwt(token, user) == token
  {
  }

  /** The session shows the token's id and role, and nothing else in it changes. */
  lemma SessionCopiesToken(session: AuthSession, token: Token)
    ensures SessionOf(session, token).user.id == token.id && SessionOf(session, token).user.role == token.role
    ensures SessionOf(session, token).user.name == session.user.name
    ensures SessionOf(session, token).user.email == session.user.email
    ensures SessionOf(session, token).expires == session.expires
  {
  }

  /** After a sign-in and any number of refreshes, the session carries the signed-in user's id
      and role. */
  lemma {:induction false} SessionAfterSignIn(session: AuthSession, token: Token, user: AuthUser, refreshes: nat)
    ensures var t := Refreshed(Jwt(token, Some(user)), refreshes);
      SessionOf(session, t).user.id == user.id && SessionOf(session, t).user.role == Some(user.role)
  {
    RefreshedUnchanged(Jwt(token, Some(user)), refreshes);
  }

  /** The token after `n` further `jwt` calls without a user. */
  function Refreshed(token: Token, n: nat): Token
  {
    if n == 0 then token else Jwt(Refreshed(token, n - 1), None)
  }

  lemma {:induction false} RefreshedUnchanged(token: Token, n: nat)
    ensures Refreshed(token, n) == token
  {
    if n > 0 {
      RefreshedUnchanged(token, n - 1);
    }
  }
}
