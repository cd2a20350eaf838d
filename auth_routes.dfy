/**
 * The authentication routes (backend/routes/authRoutes.js): `/profile`,
 * `/register`, `/login` and `/logout`. bcrypt is the abstract `Hash` and
 * `Verify` of UserModel; the salt it draws and the id the store assigns to a
 * new document are parameters.
 */
module AuthRoutes {
  import opened Wrappers
  import opened Js
  import opened UserModel
  import opened Store

  /** The fields `/register` reads; None is a field that is missing or null. */
  datatype RegisterBody = RegisterBody(
    email: Option<string>,
    password: Option<string>,
    username: Option<string>,
    gender: Option<string>,
    age: Option<real>)

  /** The fields `/login` reads. */
  datatype LoginBody = LoginBody(email: Option<string>, password: Option<string>)

  const NotAuthenticated: string := "Not authenticated"
  const AlreadyExists: string := "User already exists"
  const Registered: string := "User registered successfully"
  const InvalidCredentials: string := "Invalid credentials"
  const LoggedIn: string := "Logged in successfully"
  const LogoutFailed: string := "Failed to log out"
  const LoggedOut: string := "Logged out successfully"

  /** `User.findOne({ email })`; a missing email is taken to match nobody. */
  ghost function Lookup(users: map<UserId, User>, email: Option<string>): (r: Option<UserId>)
    requires UsersValid(users)
    ensures r.Some? ==> r.value in users && email == Some(users[r.value].email)
    ensures r.None? && email.Some? ==> !EmailTaken(users, email.value)
  {
    if email.None? then None else EmailOwner(users, email.value)
  }

  /** The user `/register` would save: the body's fields with the password replaced by its digest. */
  function NewUser(body: RegisterBody, salt: nat, id: UserId): Option<User>
    requires body.password.Some?
  {
    CreateUser(id, body.email, Hash(body.password.value, salt), body.username, body.gender, body.age)
  }

  // ---------------------------------------------------------------------------
  // Specifications

  /** GET /profile: 401 without a session, 404 once the id no longer resolves, else the user without its password. */
  ghost function ProfileResult(st: State, session: Session): (r: Result)
    ensures r.state == st && r.session == session
    ensures session.None? ==> r.res == Response(401, Fail(ErrorKey, NotAuthenticated))
    ensures session.Some? && session.value !in st.users ==> r.res == Response(404, Fail(ErrorKey, UserNotFound))
    ensures session.Some? && session.value in st.users ==>
      r.res == Response(200, ProfileBody(Profile(st.users[session.value])))
  {
    if session.None? then
      Result(st, session, Response(401, Fail(ErrorKey, NotAuthenticated)))
    else if session.value !in st.users then
      Result(st, session, Response(404, Fail(ErrorKey, UserNotFound)))
    else
      Result(st, session, Response(200, ProfileBody(Profile(st.users[session.value]))))
  }

  /**
   * POST /register: 400 for a taken email, 500 when bcrypt has no password to
   * hash or the save fails (a required path missing, the id already in use),
   * otherwise one new user holding the digest of the password, never the
   * password itself. No session is bound.
   */
  ghost function RegisterResult(st: State, session: Session, body: RegisterBody, salt: nat, freshId: UserId)
    : (r: Result)
    requires UsersValid(st.users)
    ensures r.session == session && r.state.reports == st.reports
    ensures Lookup(st.users, body.email).Some? ==> r.res == Response(400, Fail(ErrorKey, AlreadyExists))
    ensures r.res.status == 201 <==>
      && Lookup(st.users, body.email).None? && body.password.Some?
      && NewUser(body, salt, freshId).Some? && freshId !in st.users
    ensures r.res.status != 201 ==> r.state == st
    ensures r.res.status == 201 ==>
      var u := NewUser(body, salt, freshId).value;
      && r.state.users == st.users[freshId := u]
      && u.password == Hash(body.password.value, salt) && Verify(body.password.value, u.password)
      && r.res.body == Note(Registered)
  {
    if Lookup(st.users, body.email).Some? then
      Result(st, session, Response(400, Fail(ErrorKey, AlreadyExists)))
    else if body.password.None? then
      Result(st, session, Response(500, ServerError))
    else if NewUser(body, salt, freshId).None? || freshId in st.users then
      Result(st, session, Response(500, ServerError))
    else
      Result(st.(users := st.users[freshId := NewUser(body, salt, freshId).value]), session,
             Response(201, Note(Registered)))
  }

  /**
   * POST /login: 404 for an unknown email, 500 when bcrypt has no password to
   * compare, 400 for a wrong password, and only
   * on success is the session bound, to that user's id; the body is a message.
   */
  ghost function LoginResult(st: State, session: Session, body: LoginBody): (r: Result)
    requires UsersValid(st.users)
    ensures r.state == st
    ensures Lookup(st.users, body.email).None? ==> r.res == Response(404, Fail(ErrorKey, UserNotFound))
    ensures Lookup(st.users, body.email).Some? && body.password.None? ==> r.res == Response(500, ServerError)
    ensures Lookup(st.users, body.email).Some? && body.password.Some?
      && !Verify(body.password.value, st.users[Lookup(st.users, body.email).value].password)
      ==> r.res == Response(400, Fail(ErrorKey, InvalidCredentials))
    ensures r.res.status == 200 <==>
      && Lookup(st.users, body.email).Some? && body.password.Some?
      && Verify(body.password.value, st.users[Lookup(st.users, body.email).value].password)
    ensures r.res.status == 200 ==> r.session == Lookup(st.users, body.email) && r.res.body == Note(LoggedIn)
    ensures r.res.status != 200 ==> r.session == session
  {
    var found := Lookup(st.users, body.email);
    if found.None? then
      Result(st, session, Response(404, Fail(ErrorKey, UserNotFound)))
    else if body.password.None? then
      Result(st, session, Response(500, ServerError))
    else if !Verify(body.password.value, st.users[found.value].password) then
      Result(st, session, Response(400, Fail(ErrorKey, InvalidCredentials)))
    else
      Result(st, Some(st.users[found.value].id), Response(200, Note(LoggedIn)))
  }

  /** POST /logout: the session is destroyed, or kept with a 500 when destroying it fails. */
  function LogoutResult(st: State, session: Session, destroyFails: bool): (r: Result)
    ensures r.state == st
    ensures destroyFails ==> r.session == session && r.res == Response(500, Fail(ErrorKey, LogoutFailed))
    ensures !destroyFails ==> r.session == None && r.res == Response(200, Note(LoggedOut))
  {
    if destroyFails then Result(st, session, Response(500, Fail(ErrorKey, LogoutFailed)))
    else Result(st, None, Response(200, Note(LoggedOut)))
  }

  // ---------------------------------------------------------------------------
  // Handlers

  method GetProfile(db: Database, session: Session) returns (res: Response)
    requires db.Valid()
    ensures res == ProfileResult(db.Snapshot(), session).res
  {
    if session.None? {
      return Response(401, Fail(ErrorKey, NotAuthenticated));
    }
    if session.value !in db.users {
      return Response(404, Fail(ErrorKey, UserNotFound));
    }
    var user := Profile(db.users[session.value]);
    res := Response(200, ProfileBody(user));
  }

  method PostRegister(db: Database, body: RegisterBody, salt: nat, freshId: UserId) returns (res: Response)
    requires db.Valid()
    modifies db
    ensures db.Valid()
    ensures (db.Snapshot(), res) == var r := RegisterResult(old(db.Snapshot()), None, body, salt, freshId); (r.state, r.res)
  {
    var existingUser: Option<UserId> := None;
    if body.email.Some? {
      existingUser := db.FindOne(body.email.value);
    }
    if existingUser.Some? {
      return Response(400, Fail(ErrorKey, AlreadyExists));
    }
    if body.password.None? {
      return Response(500, ServerError);
    }
    var hashedPassword := Hash(body.password.value, salt);
    var user := CreateUser(freshId, body.email, hashedPassword, body.username, body.gender, body.age);
    if user.None? || freshId in db.users {
      return Response(500, ServerError);
    }
    db.users := db.users[freshId := user.value];
    res := Response(201, Note(Registered));
  }

  method PostLogin(db: Database, session: Session, body: LoginBody) returns (res: Response, session': Session)
    requires db.Valid()
    ensures Result(db.Snapshot(), session', res) == LoginResult(db.Snapshot(), session, body)
  {
    session' := session;
    var found: Option<UserId> := None;
    if body.email.Some? {
      found := db.FindOne(body.email.value);
    }
    if found.None? {
      return Response(404, Fail(ErrorKey, UserNotFound)), session;
    }
    var user := db.users[found.value];
    if body.password.None? {
      return Response(500, ServerError), session;
    }
    var isMatch := Verify(body.password.value, user.password);
    if !isMatch {
      return Response(400, Fail(ErrorKey, InvalidCredentials)), session;
    }
    session' := Some(user.id);
    res := Response(200, Note(LoggedIn));
  }

  method PostLogout(session: Session, destroyFails: bool) returns (res: Response, session': Session)
    ensures destroyFails ==> session' == session && res == Response(500, Fail(ErrorKey, LogoutFailed))
    ensures !destroyFails ==> session' == None && res == Response(200, Note(LoggedOut))
  {
    if destroyFails {
      return Response(500, Fail(ErrorKey, LogoutFailed)), session;
    }
    session' := None;
    res := Response(200, Note(LoggedOut));
  }
}
