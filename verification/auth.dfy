/**
 * Accounts and the session: the `users` table, the `userId` slot of the
 * session, the `requireAuth` gate and the register, login, logout and `/me`
 * handlers. Password hashing and comparison are parameters (`hash`, `verify`);
 * the request schemas' own rules are not modelled, only whether the body
 * parses. A database call that throws is an input naming the call.
 */
module Auth {
  import opened Wrappers
  import opened Seqs

  datatype User = User(id: int, username: string, email: string, passwordHash: string)

  datatype RegisterInput = RegisterInput(username: string, email: string, password: string)
  datatype LoginInput = LoginInput(email: string, password: string)

  /** The `error` strings the handlers answer with. */
  datatype AuthError =
    | Unauthorized | InvalidInput | EmailRegistered | UsernameTaken | RegistrationFailed
    | InvalidCredentials | LoginFailed | LogoutFailed | NotAuthenticated | UserNotFound | GetUserFailed

  function ErrorText(e: AuthError): (r: string)
    ensures r != ""
  {
    match e
    case Unauthorized => "Unauthorized"
    case InvalidInput => "Invalid input"
    case EmailRegistered => "Email already registered"
    case UsernameTaken => "Username already taken"
    case RegistrationFailed => "Registration failed"
    case InvalidCredentials => "Invalid email or password"
    case LoginFailed => "Login failed"
    case LogoutFailed => "Logout failed"
    case NotAuthenticated => "Not authenticated"
    case UserNotFound => "User not found"
    case GetUserFailed => "Failed to get user"
  }

  /**
   * Each error has its own text, so a client can tell the answers apart by the
   * `error` field alone; an unknown email and a wrong password share one error
   * and so cannot be told apart.
   */
  lemma ErrorTextIdentifies(a: AuthError, b: AuthError)
    ensures ErrorText(a) == ErrorText(b) <==> a == b
  {
  }

  /** A JSON body: `{ error }`, the public fields of a user, or the logout acknowledgement. */
  datatype Body = ErrorBody(error: string) | UserBody(id: int, username: string, email: string) | LoggedOut

  datatype Reply = Reply(status: int, body: Body)

  /** What the handlers reveal of a user: never the password hash. */
  function Public(u: User): Body
  {
    UserBody(u.id, u.username, u.email)
  }

  /** Where a database call of the register handler throws, if one does. */
  datatype RegisterThrow = NoThrow | LookupThrows | InsertThrows

  function UserKey(u: User): int { u.id }

  // The WHERE conditions of the handlers' queries.
  function HasEmail(email: string): User -> bool { (u: User) => u.email == email }
  function HasUsername(username: string): User -> bool { (u: User) => u.username == username }
  function HasId(id: int): User -> bool { (u: User) => u.id == id }

  /** `SELECT ... WHERE cond LIMIT 1`: the first row in table order that satisfies `cond`. */
  function FindFirst(users: seq<User>, cond: User -> bool): (r: Option<User>)
    ensures r.Some? ==> r.value in users && cond(r.value)
    ensures r.None? <==> forall u :: u in users ==> !cond(u)
    decreases |users|
  {
    if users == [] then None
    else
      var init, last := users[..|users| - 1], users[|users| - 1];
      assert users == init + [last];
      var r := FindFirst(init, cond);
      if r.Some? then r else if cond(last) then Some(last) else None
  }

  /** `!req.session?.userId`: absent and 0 are both falsy. */
  predicate SignedIn(userId: Option<int>)
  {
    userId.Some? && userId.value != 0
  }

  /**
   * Ids are positive, issued in increasing order below `nextId`, and no two
   * users share an email or a username.
   */
  ghost predicate UsersValid(users: seq<User>, nextId: int)
  {
    && Increasing(users, UserKey)
    && (forall i :: 0 <= i < |users| ==> 1 <= users[i].id < nextId)
    && (forall i, j :: 0 <= i < j < |users| ==> users[i].email != users[j].email && users[i].username != users[j].username)
  }

  /** Appending a user with the next id and an unused email and username keeps the table valid. */
  lemma InsertUser(users: seq<User>, nextId: int, u: User)
    requires UsersValid(users, nextId) && 1 <= nextId && u.id == nextId
    requires forall v :: v in users ==> v.email != u.email && v.username != u.username
    ensures UsersValid(users + [u], nextId + 1)
  {
    AppendIncreasing(users, u, UserKey);
    var all := users + [u];
    forall i, j | 0 <= i < j < |all|
      ensures all[i].email != all[j].email && all[i].username != all[j].username
    {
      if j == |users| {
        assert all[i] in users;
      }
    }
  }

  /** In a valid table a lookup by email, username or id finds the one user who has it. */
  lemma UniqueLookup(users: seq<User>, nextId: int, u: User)
    requires UsersValid(users, nextId) && u in users
    ensures FindFirst(users, HasEmail(u.email)) == Some(u)
    ensures FindFirst(users, HasUsername(u.username)) == Some(u)
    ensures FindFirst(users, HasId(u.id)) == Some(u)
  {
    var j :| 0 <= j < |users| && users[j] == u;
    var byEmail := FindFirst(users, HasEmail(u.email)).value;
    var byName := FindFirst(users, HasUsername(u.username)).value;
    var byId := FindFirst(users, HasId(u.id)).value;
    var a :| 0 <= a < |users| && users[a] == byEmail;
    var b :| 0 <= b < |users| && users[b] == byName;
    var c :| 0 <= c < |users| && users[c] == byId;
    assert a == j && b == j;
    assert UserKey(users[c]) == UserKey(users[j]);
    assert c == j;
  }

  /** `requireAuth`: None when it calls `next`, otherwise the 401 it answers. */
  function RequireAuth(userId: Option<int>): (r: Option<Reply>)
    ensures r.None? <==> SignedIn(userId)
    ensures r.Some? ==> r.value.status == 401 && r.value.body == ErrorBody(ErrorText(Unauthorized))
  {
    if !SignedIn(userId) then Some(Reply(401, ErrorBody(ErrorText(Unauthorized)))) else None
  }

  /** The session's `userId` slot. */
  class Session {
    var userId: Option<int>

    constructor ()
      ensures userId == None
    {
      userId := None;
    }
  }

  /** The `users` table; `nextId` is the id its serial column issues next. */
  class UserTable {
    var users: seq<User>
    var nextId: int

    ghost predicate Valid()
      reads this
    {
      1 <= nextId && UsersValid(users, nextId)
    }

    constructor ()
      ensures Valid() && users == []
    {
      users, nextId := [], 1;
    }

    predicate EmailUsed(email: string)
      reads this
    {
      exists u :: u in users && u.email == email
    }

    predicate UsernameUsed(username: string)
      reads this
    {
      exists u :: u in users && u.username == username
    }

    /** `INSERT INTO users ... RETURNING *`. */
    method Insert(username: string, email: string, passwordHash: string) returns (u: User)
      requires Valid() && !EmailUsed(email) && !UsernameUsed(username)
      modifies this
      ensures Valid()
      ensures u == User(old(nextId), username, email, passwordHash)
      ensures users == old(users) + [u] && nextId == old(nextId) + 1
    {
      u := User(nextId, username, email, passwordHash);
      InsertUser(users, nextId, u);
      users, nextId := users + [u], nextId + 1;
    }
  }

  /** `POST /api/auth/register`. */
  method Register(db: UserTable, session: Session, body: Option<RegisterInput>, hash: string -> string, failure: RegisterThrow)
    returns (reply: Reply)
    requires db.Valid()
    modifies db, session
    ensures db.Valid()
    ensures body.None? ==> reply == Reply(400, ErrorBody(ErrorText(InvalidInput))) && unchanged(db, session)
    ensures body.Some? && failure == LookupThrows ==> reply == Reply(500, ErrorBody(ErrorText(RegistrationFailed))) && unchanged(db, session)
    // The email is checked before the username.
    ensures body.Some? && failure != LookupThrows && old(db.EmailUsed(body.value.email)) ==>
      reply == Reply(400, ErrorBody(ErrorText(EmailRegistered))) && unchanged(db, session)
    ensures body.Some? && failure != LookupThrows && !old(db.EmailUsed(body.value.email)) && old(db.UsernameUsed(body.value.username)) ==>
      reply == Reply(400, ErrorBody(ErrorText(UsernameTaken))) && unchanged(db, session)
    ensures body.Some? && failure == InsertThrows && !old(db.EmailUsed(body.value.email)) && !old(db.UsernameUsed(body.value.username)) ==>
      reply == Reply(500, ErrorBody(ErrorText(RegistrationFailed))) && unchanged(db, session)
    // Exactly one user is stored, holding the hash of the password, and is signed in.
    ensures body.Some? && failure == NoThrow && !old(db.EmailUsed(body.value.email)) && !old(db.UsernameUsed(body.value.username)) ==>
      var u := User(old(db.nextId), body.value.username, body.value.email, hash(body.value.password));
      && db.users == old(db.users) + [u]
      && session.userId == Some(u.id) && RequireAuth(session.userId) == None
      && reply == Reply(201, Public(u))
  {
    if body.None? {
      return Reply(400, ErrorBody(ErrorText(InvalidInput)));
    }
    var input := body.value;
    if failure == LookupThrows {
      return Reply(500, ErrorBody(ErrorText(RegistrationFailed)));
    }
    var existingUser := FindFirst(db.users, HasEmail(input.email));
    if existingUser.Some? {
      return Reply(400, ErrorBody(ErrorText(EmailRegistered)));
    }
    var existingUsername := FindFirst(db.users, HasUsername(input.username));
    if existingUsername.Some? {
      return Reply(400, ErrorBody(ErrorText(UsernameTaken)));
    }
    if failure == InsertThrows {
      return Reply(500, ErrorBody(ErrorText(RegistrationFailed)));
    }
    var passwordHash := hash(input.password);
    var newUser := db.Insert(input.username, input.email, passwordHash);
    session.userId := Some(newUser.id);
    reply := Reply(201, Public(newUser));
  }

  /**
   * `POST /api/auth/login`. `throws` says the lookup or the password
   * comparison throws.
   */
  method Login(db: UserTable, session: Session, body: Option<LoginInput>, verify: (string, string) -> bool, throws: bool)
    returns (reply: Reply)
    requires db.Valid()
    modifies session
    ensures body.None? ==> reply == Reply(400, ErrorBody(ErrorText(InvalidInput))) && unchanged(session)
    ensures body.Some? && throws ==> reply == Reply(500, ErrorBody(ErrorText(LoginFailed))) && unchanged(session)
    // An unknown email and a wrong password get the same answer, and nobody is signed in.
    ensures body.Some? && !throws && !db.EmailUsed(body.value.email) ==>
      reply == Reply(401, ErrorBody(ErrorText(InvalidCredentials))) && unchanged(session)
    ensures body.Some? && !throws ==>
      forall u :: u in db.users && u.email == body.value.email ==>
        && (!verify(body.value.password, u.passwordHash) ==> reply == Reply(401, ErrorBody(ErrorText(InvalidCredentials))) && session.userId == old(session.userId))
        && (verify(body.value.password, u.passwordHash) ==> reply == Reply(200, Public(u)) && session.userId == Some(u.id))
  {
    if body.None? {
      return Reply(400, ErrorBody(ErrorText(InvalidInput)));
    }
    var input := body.value;
    if throws {
      return Reply(500, ErrorBody(ErrorText(LoginFailed)));
    }
    var user := FindFirst(db.users, HasEmail(input.email));
    if user.None? {
      return Reply(401, ErrorBody(ErrorText(InvalidCredentials)));
    }
    assert forall u :: u in db.users && u.email == input.email ==> u == user.value by {
      forall u | u in db.users && u.email == input.email
        ensures u == user.value
      {
        UniqueLookup(db.users, db.nextId, u);
      }
    }
    var isValid := verify(input.password, user.value.passwordHash);
    if !isValid {
      return Reply(401, ErrorBody(ErrorText(InvalidCredentials)));
    }
    session.userId := Some(user.value.id);
    reply := Reply(200, Public(user.value));
  }

  /** `POST /api/auth/logout`: the session is destroyed unless destroying it fails. */
  method Logout(session: Session, destroyFails: bool) returns (reply: Reply)
    modifies session
    ensures destroyFails ==> reply == Reply(500, ErrorBody(ErrorText(LogoutFailed))) && unchanged(session)
    ensures !destroyFails ==> reply == Reply(200, LoggedOut) && session.userId == None && RequireAuth(session.userId).Some?
  {
    if destroyFails {
      return Reply(500, ErrorBody(ErrorText(LogoutFailed)));
    }
    session.userId := None;
    reply := Reply(200, LoggedOut);
  }

  /** `GET /api/auth/me`: the signed-in user's public fields. */
  method Me(db: UserTable, session: Session, throws: bool) returns (reply: Reply)
    requires db.Valid()
    ensures !SignedIn(session.userId) ==> reply == Reply(401, ErrorBody(ErrorText(NotAuthenticated)))
    ensures SignedIn(session.userId) && throws ==> reply == Reply(500, ErrorBody(ErrorText(GetUserFailed)))
    ensures SignedIn(session.userId) && !throws && (forall u :: u in db.users ==> u.id != session.userId.value) ==>
      reply == Reply(401, ErrorBody(ErrorText(UserNotFound)))
    ensures SignedIn(session.userId) && !throws ==>
      forall u :: u in db.users && u.id == session.userId.value ==> reply == Reply(200, Public(u))
  {
    if !SignedIn(session.userId) {
      return Reply(401, ErrorBody(ErrorText(NotAuthenticated)));
    }
    if throws {
      return Reply(500, ErrorBody(ErrorText(GetUserFailed)));
    }
    var user := FindFirst(db.users, HasId(session.userId.value));
    if user.None? {
      return Reply(401, ErrorBody(ErrorText(UserNotFound)));
    }
    assert forall u :: u in db.users && u.id == session.userId.value ==> u == user.value by {
      forall u | u in db.users && u.id == session.userId.value
        ensures u == user.value
      {
        UniqueLookup(db.users, db.nextId, u);
      }
    }
    reply := Reply(200, Public(user.value));
  }
}
