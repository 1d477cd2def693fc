/** Account routes: signup, login and update-password as transitions of a
    user store keyed by email. Password comparison is the store's comparator
    (the user model's `comparePassword`, hashing included); a signed token is
    represented by the claims it carries. */
module Auth {
  import opened Options

  /** "1d" as the token signer reads it, in seconds. */
  const TokenLifetimeSeconds: nat := 86400

  /** The login cookie's `maxAge`, in milliseconds: 10 hours. */
  const CookieMaxAgeMs: nat := 36000000

  /** A stored account; `password` is the stored credential. */
  datatype User = User(id: string, email: string, password: string, role: seq<string>)

  /** A signed token: its payload is the user id alone, with its expiry. */
  datatype Token = Token(userId: string, expiresInSeconds: nat)

  /** The cookie set by a successful login. */
  datatype Cookie = Cookie(name: string, value: Token, maxAgeMs: nat, sameSite: string, secure: bool, httpOnly: bool)

  /** The `userObj` returned by a successful login; there is no password in it. */
  datatype UserView = UserView(email: string, id: string, role: seq<string>)

  datatype SignupOutcome = SignupCreated(token: Token) | SignupConflict
  {
    function Status(): nat {
      if SignupCreated? then 201 else 409
    }
  }

  datatype LoginOutcome =
    | LoginOk(userObj: UserView, token: Token, cookie: Cookie)
    | LoginUserNotFound
    | LoginAuthFailed
  {
    function Status(): nat {
      if LoginOk? then 200 else 401
    }

    function Message(): string {
      match this
      case LoginOk(_, _, _) => "Login success"
      case LoginUserNotFound => "User not found"
      case LoginAuthFailed => "Authentication failed"
    }
  }

  datatype UpdateOutcome = PasswordUpdated(newToken: Token) | UpdateUserNotFound | UpdateWrongPassword
  {
    function Status(): nat {
      match this
      case PasswordUpdated(_) => 200
      case UpdateUserNotFound => 404
      case UpdateWrongPassword => 401
    }
  }

  type Users = map<string, User>

  /** `comparePassword`: does the candidate match the stored credential? */
  type Comparator = (string, string) -> bool

  /** Every account is filed under its own email, so emails are unique. */
  predicate WellKeyed(users: Users) {
    forall e :: e in users ==> users[e].email == e
  }

  /** Signing the payload `{userId}` with a one-day expiry. */
  function Sign(userId: string): Token {
    Token(userId, TokenLifetimeSeconds)
  }

  function ViewOf(user: User): UserView {
    UserView(user.email, user.id, user.role)
  }

  function SessionCookie(token: Token): Cookie {
    Cookie("token", token, CookieMaxAgeMs, "none", true, false)
  }

  /** POST /signup: refuse a registered email with no write; otherwise add
      exactly one account and sign a token for it. `freshId` is the id the
      database assigns to the new account. */
  function SignupStep(users: Users, email: string, password: string, role: seq<string>, freshId: string): (res: (Users, SignupOutcome))
    ensures email in users ==> res.0 == users && res.1.Status() == 409
    ensures email !in users ==>
      && res.1.Status() == 201
      && res.0.Keys == users.Keys + {email}
      && res.0[email] == User(freshId, email, password, role)
      && (forall e :: e in users ==> res.0[e] == users[e])
      && res.1.token.userId == freshId
      && res.1.token.expiresInSeconds == 86400
    ensures WellKeyed(users) ==> WellKeyed(res.0)
  {
    if email in users then (users, SignupConflict)
    else
      var user := User(freshId, email, password, role);
      (users[email := user], SignupCreated(Sign(user.id)))
  }

  /** POST /login: 401 for an unknown email and for a mismatch, with distinct
      messages; on success a token, the cookie carrying that same token, and
      the account without its password. */
  function LoginStep(users: Users, matches: Comparator, email: string, password: string): (out: LoginOutcome)
    ensures out.LoginOk? <==> email in users && matches(password, users[email].password)
    ensures email !in users ==> out == LoginUserNotFound && out.Status() == 401
    ensures email in users && !matches(password, users[email].password) ==>
      out == LoginAuthFailed && out.Status() == 401
    ensures out.LoginOk? ==>
      && out.token.userId == users[email].id
      && out.token.expiresInSeconds == 86400
      && out.cookie.name == "token"
      && out.cookie.value == out.token
      && out.cookie.maxAgeMs == 36000000
      && out.cookie.maxAgeMs < out.token.expiresInSeconds * 1000
      && out.cookie.sameSite == "none" && out.cookie.secure && !out.cookie.httpOnly
      && out.userObj.email == users[email].email
      && out.userObj.id == users[email].id
      && out.userObj.role == users[email].role
    ensures WellKeyed(users) && out.LoginOk? ==> out.userObj.email == email
  {
    if email !in users then LoginUserNotFound
    else
      var user := users[email];
      if !matches(password, user.password) then LoginAuthFailed
      else
        var token := Sign(user.id);
        LoginOk(ViewOf(user), token, SessionCookie(token))
  }

  /** PUT /update-password: 404 for an unknown email, 401 and no write for a
      wrong current password; otherwise the one account's password is
      replaced and a fresh token is signed for the same id. */
  function UpdatePasswordStep(users: Users, matches: Comparator, email: string, currentPassword: string, newPassword: string): (res: (Users, UpdateOutcome))
    ensures email !in users ==> res.0 == users && res.1 == UpdateUserNotFound && res.1.Status() == 404
    ensures email in users && !matches(currentPassword, users[email].password) ==>
      res.0 == users && res.1 == UpdateWrongPassword && res.1.Status() == 401
    ensures email in users && matches(currentPassword, users[email].password) ==>
      && res.1.Status() == 200
      && res.0.Keys == users.Keys
      && res.0[email].password == newPassword
      && res.0[email].id == users[email].id
      && res.0[email].email == users[email].email
      && res.0[email].role == users[email].role
      && (forall e :: e in users && e != email ==> res.0[e] == users[e])
      && res.1.newToken.userId == users[email].id
      && res.1.newToken.expiresInSeconds == 86400
    ensures WellKeyed(users) ==> WellKeyed(res.0)
  {
    if email !in users then (users, UpdateUserNotFound)
    else
      var user := users[email];
      if !matches(currentPassword, user.password) then (users, UpdateWrongPassword)
      else
        var updated := user.(password := newPassword);
        (users[email := updated], PasswordUpdated(Sign(updated.id)))
  }

  /** The two routes disclose an unknown email differently: login answers
      401, update-password 404. */
  lemma UnknownEmailStatusesDiffer(users: Users, matches: Comparator, email: string, p1: string, p2: string, p3: string)
    requires email !in users
    ensures LoginStep(users, matches, email, p1).Status() == 401
    ensures UpdatePasswordStep(users, matches, email, p2, p3).1.Status() == 404
  {
  }

  /** A refused update changes no login: every later login answers as it
      would have before. */
  lemma FailedUpdateKeepsLogins(users: Users, matches: Comparator, email: string, currentPassword: string, newPassword: string, other: string, candidate: string)
    requires !UpdatePasswordStep(users, matches, email, currentPassword, newPassword).1.PasswordUpdated?
    ensures LoginStep(UpdatePasswordStep(users, matches, email, currentPassword, newPassword).0, matches, other, candidate)
         == LoginStep(users, matches, other, candidate)
  {
  }

  /** After a successful update the new password logs in, with a token for
      the same id, as soon as the comparator accepts the stored value for
      itself; the current password stops working when it does not match the
      new one. */
  lemma UpdatedPasswordLogsIn(users: Users, matches: Comparator, email: string, currentPassword: string, newPassword: string)
    requires email in users && matches(currentPassword, users[email].password)
    requires matches(newPassword, newPassword)
    ensures var after := UpdatePasswordStep(users, matches, email, currentPassword, newPassword).0;
      && LoginStep(after, matches, email, newPassword).LoginOk?
      && LoginStep(after, matches, email, newPassword).token == Sign(users[email].id)
      && (!matches(currentPassword, newPassword) ==> LoginStep(after, matches, email, currentPassword) == LoginAuthFailed)
  {
  }

  /** A new account can log in with the password it signed up with, and gets
      a token for the id it was given. */
  lemma SignedUpUserLogsIn(users: Users, matches: Comparator, email: string, password: string, role: seq<string>, freshId: string)
    requires email !in users
    requires matches(password, password)
    ensures var after := SignupStep(users, email, password, role, freshId).0;
      && LoginStep(after, matches, email, password).LoginOk?
      && LoginStep(after, matches, email, password).token == Sign(freshId)
      && LoginStep(after, matches, email, password).userObj == UserView(email, freshId, role)
  {
  }

  /** The per-request session that login writes its token into. */
  class Session {
    var token: Option<Token>

    constructor ()
      ensures token == None
    {
      token := None;
    }
  }

  /** The user collection, keyed by email, with the user model's comparator. */
  class UserStore {
    var users: Users
    const matches: Comparator

    ghost predicate Valid()
      reads this
    {
      WellKeyed(users)
    }

    constructor (matches: Comparator)
      ensures Valid() && users == map[] && this.matches == matches
    {
      users := map[];
      this.matches := matches;
    }

    /** POST /signup */
    method Signup(email: string, password: string, role: seq<string>, freshId: string) returns (out: SignupOutcome)
      requires Valid()
      modifies this
      ensures Valid()
      ensures (users, out) == SignupStep(old(users), email, password, role, freshId)
    {
      if email in users {
        return SignupConflict;
      }
      var user := User(freshId, email, password, role);
      users := users[email := user];
      out := SignupCreated(Sign(user.id));
    }

    /** POST /login: on success the token also goes into the session. */
    method Login(email: string, password: string, session: Session) returns (out: LoginOutcome)
      requires Valid()
      modifies session
      ensures out == LoginStep(users, matches, email, password)
      ensures session.token == if out.LoginOk? then Some(out.token) else old(session.token)
    {
      if email !in users {
        return LoginUserNotFound;
      }
      var user := users[email];
      if !matches(password, user.password) {
        return LoginAuthFailed;
      }
      var token := Sign(user.id);
      session.token := Some(token);
      out := LoginOk(ViewOf(user), token, SessionCookie(token));
    }

    /** PUT /update-password */
    method UpdatePassword(email: string, currentPassword: string, newPassword: string) returns (out: UpdateOutcome)
      requires Valid()
      modifies this
      ensures Valid()
      ensures (users, out) == UpdatePasswordStep(old(users), matches, email, currentPassword, newPassword)
    {
      if email !in users {
        return UpdateUserNotFound;
      }
      var user := users[email];
      if !matches(currentPassword, user.password) {
        return UpdateWrongPassword;
      }
      user := user.(password := newPassword);
      users := users[email := user];
      out := PasswordUpdated(Sign(user.id));
    }
  }
}
