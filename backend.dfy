/**
 * The backend as a whole: one request dispatched to its handler, and runs of
 * requests. The lemmas here are the facts the handlers share: the guard
 * ladder, the store invariant, and the append-only logs.
 */
module Backend {
  import opened Wrappers
  import opened Js
  import opened UserModel
  import opened ReportModel
  import opened Store
  import opened AuthRoutes
  import opened HealthRoutes
  import opened GameRoutes
  import opened ReportRoutes

  /** The requests the mounted routers serve, with the inputs each one takes. */
  datatype Request =
    | ProfileReq
    | RegisterReq(register: RegisterBody, salt: nat, freshId: UserId)
    | LoginReq(login: LoginBody)
    | LogoutReq(destroyFails: bool)
    | BmiReq(bmi: BmiBody)
    | HeartRateReq(heartRateWeek: JsValue)
    | StepsReq(stepsWeek: JsValue)
    | CalsReq(burned: JsValue, consumed: JsValue, now: Time)
    | ScoreReq(score: JsValue, now: Time)
    | ScoresReq(scoresOf: UserId)
    | GeneratedReq(report: ReportBody, now: Time)
    | ReportsReq(reportsOf: UserId)

  /** The requests that write to the session user's documents. */
  predicate IsSessionWrite(req: Request) {
    req.BmiReq? || req.HeartRateReq? || req.StepsReq? || req.CalsReq? || req.ScoreReq? || req.GeneratedReq?
  }

  /** The requests that only read the collections. */
  predicate IsReadOnly(req: Request) {
    req.ProfileReq? || req.LoginReq? || req.LogoutReq? || req.ScoresReq? || req.ReportsReq?
  }

  ghost function Handle(st: State, session: Session, req: Request): (r: Result)
    requires UsersValid(st.users)
    ensures r.state.users == st.users || req.RegisterReq? || IsSessionWrite(req)
    ensures r.state.reports == st.reports || req.GeneratedReq?
  {
    match req
    case ProfileReq => ProfileResult(st, session)
    case RegisterReq(body, salt, freshId) => RegisterResult(st, session, body, salt, freshId)
    case LoginReq(body) => LoginResult(st, session, body)
    case LogoutReq(destroyFails) => LogoutResult(st, session, destroyFails)
    case BmiReq(body) => Bmi(st, session, body)
    case HeartRateReq(week) => Week(st, session, week, false)
    case StepsReq(week) => Week(st, session, week, true)
    case CalsReq(burned, consumed, now) => Cals(st, session, burned, consumed, now)
    case ScoreReq(score, now) => ScoreResult(st, session, score, now)
    case ScoresReq(uid) => Result(st, session, ScoresResult(st, uid))
    case GeneratedReq(body, now) => CreateResult(st, session, body, now)
    case ReportsReq(uid) => Result(st, session, ListResult(st, uid))
  }

  /** Success statuses: 200, and 201 for a registration. */
  predicate Succeeded(res: Response) {
    res.status == 200 || res.status == 201
  }

  /**
   * `after` extends `before`: no user is removed, no user's email or password
   * changes, the calorie and score logs and the report collection only grow
   * at the end.
   */
  ghost predicate Extends(before: State, after: State) {
    && before.users.Keys <= after.users.Keys
    && (forall id | id in before.users ::
          && after.users[id].email == before.users[id].email
          && after.users[id].password == before.users[id].password
          && before.users[id].calorieRecords <= after.users[id].calorieRecords
          && before.users[id].gameScores <= after.users[id].gameScores)
    && before.reports <= after.reports
  }

  lemma ExtendsTransitive(a: State, b: State, c: State)
    requires Extends(a, b) && Extends(b, c)
    ensures Extends(a, c)
  {
    forall id | id in a.users
      ensures a.users[id].calorieRecords <= c.users[id].calorieRecords
      ensures a.users[id].gameScores <= c.users[id].gameScores
    {
      var x, y, z := a.users[id], b.users[id], c.users[id];
      assert x.calorieRecords == y.calorieRecords[..|x.calorieRecords|];
      assert y.calorieRecords == z.calorieRecords[..|y.calorieRecords|];
      assert x.gameScores == y.gameScores[..|x.gameScores|];
      assert y.gameScores == z.gameScores[..|y.gameScores|];
    }
  }

  /** Every handler keeps the store invariant: ids match keys, weeks have seven entries, emails are unique. */
  lemma HandleKeepsValid(st: State, session: Session, req: Request)
    requires UsersValid(st.users)
    ensures UsersValid(Handle(st, session, req).state.users)
  {
    var r := Handle(st, session, req);
    match req
    case RegisterReq(body, salt, freshId) =>
      if r.res.status == 201 {
        var u := NewUser(body, salt, freshId).value;
        assert !EmailTaken(st.users, u.email);
        AddUserKeepsValid(st.users, freshId, u);
      }
    case BmiReq(_) =>
      if r.res.status == 200 { ReplaceUserKeepsValid(st.users, session.value, r.state.users[session.value]); }
    case HeartRateReq(_) =>
      if r.res.status == 200 { ReplaceUserKeepsValid(st.users, session.value, r.state.users[session.value]); }
    case StepsReq(_) =>
      if r.res.status == 200 { ReplaceUserKeepsValid(st.users, session.value, r.state.users[session.value]); }
    case CalsReq(_, _, _) =>
      if r.res.status == 200 { ReplaceUserKeepsValid(st.users, session.value, r.state.users[session.value]); }
    case ScoreReq(_, _) =>
      if r.res.status == 200 { ReplaceUserKeepsValid(st.users, session.value, r.state.users[session.value]); }
    case _ =>
  }

  /** Replacing a user's document by one with the same id and email, and well-formed, keeps the invariant. */
  lemma ReplaceUserKeepsValid(users: map<UserId, User>, id: UserId, u: User)
    requires UsersValid(users) && id in users
    requires u.id == id && u.email == users[id].email && WellFormed(u)
    ensures UsersValid(users[id := u])
  {
  }

  /** Adding a well-formed user under its own fresh id, with an email nobody holds, keeps the invariant. */
  lemma AddUserKeepsValid(users: map<UserId, User>, id: UserId, u: User)
    requires UsersValid(users) && id !in users
    requires u.id == id && !EmailTaken(users, u.email) && WellFormed(u)
    ensures UsersValid(users[id := u])
  {
  }

  /** A request that fails, whatever the step of the guard ladder, leaves both collections as they were. */
  lemma FailureChangesNothing(st: State, session: Session, req: Request)
    requires UsersValid(st.users)
    requires !Succeeded(Handle(st, session, req).res)
    ensures Handle(st, session, req).state == st
  {
  }

  /** Without a session every write is refused with 401 and changes nothing. */
  lemma NoSessionNoWrite(st: State, req: Request)
    requires UsersValid(st.users) && IsSessionWrite(req)
    ensures Handle(st, None, req).res.status == 401
    ensures Handle(st, None, req).state == st
  {
  }

  /** Reads, login and logout leave both collections as they were. */
  lemma ReadsChangeNothing(st: State, session: Session, req: Request)
    requires UsersValid(st.users) && IsReadOnly(req)
    ensures Handle(st, session, req).state == st
  {
  }

  /** Only login and logout move the session. */
  lemma SessionMovesOnlyAtLoginOrLogout(st: State, session: Session, req: Request)
    requires UsersValid(st.users) && !req.LoginReq? && !req.LogoutReq?
    ensures Handle(st, session, req).session == session
  {
  }

  /** A logged-in request touches the session user's document and no other; registration only adds one. */
  lemma OthersUntouched(st: State, session: Session, req: Request, id: UserId)
    requires UsersValid(st.users) && id in st.users
    requires session.None? || session.value != id
    ensures id in Handle(st, session, req).state.users
    ensures Handle(st, session, req).state.users[id] == st.users[id]
  {
  }

  /** Every single request extends the store. */
  lemma HandleExtends(st: State, session: Session, req: Request)
    requires UsersValid(st.users)
    ensures Extends(st, Handle(st, session, req).state)
  {
    var r := Handle(st, session, req);
    match req
    case RegisterReq(_, _, freshId) =>
      if r.res.status == 201 { GrowExtends(st, r.state, freshId); }
    case BmiReq(_) =>
      if r.res.status == 200 { GrowExtends(st, r.state, session.value); }
    case HeartRateReq(_) =>
      if r.res.status == 200 { GrowExtends(st, r.state, session.value); }
    case StepsReq(_) =>
      if r.res.status == 200 { GrowExtends(st, r.state, session.value); }
    case CalsReq(_, _, _) =>
      if r.res.status == 200 { GrowExtends(st, r.state, session.value); }
    case ScoreReq(_, _) =>
      if r.res.status == 200 { GrowExtends(st, r.state, session.value); }
    case GeneratedReq(_, _) =>
    case _ =>
  }

  /**
   * A store in which one document was written, either added or replaced by
   * one with the same email and password whose logs only grew, extends the
   * old one.
   */
  lemma GrowExtends(st: State, after: State, id: UserId)
    requires st.reports == after.reports && id in after.users
    requires after.users == st.users[id := after.users[id]]
    requires id in st.users ==>
      && after.users[id].email == st.users[id].email && after.users[id].password == st.users[id].password
      && st.users[id].calorieRecords <= after.users[id].calorieRecords
      && st.users[id].gameScores <= after.users[id].gameScores
    ensures Extends(st, after)
  {
  }

  /**
   * A run of requests, one after the other, threading the store and the session.
   * Only the `state` and `session` of a run are meaningful; its `res` is a
   * placeholder that no handler produces, since each response goes to its own client.
   */
  ghost function Run(st: State, session: Session, reqs: seq<Request>): (r: Result)
    requires UsersValid(st.users)
    ensures UsersValid(r.state.users)
    decreases |reqs|
  {
    if reqs == [] then Result(st, session, Response(200, Note("")))
    else
      var first := Handle(st, session, reqs[0]);
      HandleKeepsValid(st, session, reqs[0]);
      Run(first.state, first.session, reqs[1..])
  }

  /** Over any run the store only grows: users, their emails and passwords, and every log's prefix survive. */
  lemma {:induction false} RunExtends(st: State, session: Session, reqs: seq<Request>)
    requires UsersValid(st.users)
    ensures Extends(st, Run(st, session, reqs).state)
    decreases |reqs|
  {
    if reqs != [] {
      var first := Handle(st, session, reqs[0]);
      HandleKeepsValid(st, session, reqs[0]);
      HandleExtends(st, session, reqs[0]);
      RunExtends(first.state, first.session, reqs[1..]);
      ExtendsTransitive(st, first.state, Run(st, session, reqs).state);
    }
  }

  /** Over a run without session, nothing can be written but new registrations. */
  lemma {:induction false} AnonymousRunOnlyRegisters(st: State, reqs: seq<Request>)
    requires UsersValid(st.users)
    requires forall i | 0 <= i < |reqs| :: !reqs[i].LoginReq?
    ensures Run(st, None, reqs).session == None
    ensures Run(st, None, reqs).state.reports == st.reports
    ensures forall id | id in st.users ::
      id in Run(st, None, reqs).state.users && Run(st, None, reqs).state.users[id] == st.users[id]
    decreases |reqs|
  {
    if reqs != [] {
      var first := Handle(st, None, reqs[0]);
      HandleKeepsValid(st, None, reqs[0]);
      HandleExtends(st, None, reqs[0]);
      assert first.session == None;
      forall id | id in st.users
        ensures id in first.state.users && first.state.users[id] == st.users[id]
      {
        OthersUntouched(st, None, reqs[0], id);
      }
      AnonymousRunOnlyRegisters(first.state, reqs[1..]);
    }
  }
}
