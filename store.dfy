/**
 * The document store the route handlers share: the `User` and `Report`
 * collections, the session value, and the JSON responses the handlers send.
 */
module Store {
  import opened Wrappers
  import opened Js
  import opened UserModel
  import opened ReportModel

  /** `req.session.user`: the id bound at login, or nothing. */
  type Session = Option<UserId>

  /** The contents of both collections. */
  datatype State = State(users: map<UserId, User>, reports: seq<Report>)

  /** Which key a failure body uses: `{ error: … }` or `{ message: … }`. */
  datatype FailKey = ErrorKey | MessageKey

  /** The JSON bodies the handlers send. */
  datatype Body =
    | Fail(key: FailKey, text: string)
    | ServerError // a 500 carrying the store's or bcrypt's own error message
    | Note(text: string)
    | BmiSaved(text: string, latestBmi: BmiField, height: JsValue, weight: JsValue, age: JsValue)
    | WeekSaved(text: string, week: seq<JsValue>)
    | CaloriesSaved(text: string, calorieRecords: seq<CalorieRecord>)
    | ProfileBody(user: ProfileView)
    | ScoresBody(gameScores: seq<GameScore>)
    | ReportSaved(text: string, report: Report)
    | ReportsBody(reports: seq<Report>)

  datatype Response = Response(status: nat, body: Body)

  /** The outcome of one request: both collections, the session, and the response. */
  datatype Result = Result(state: State, session: Session, res: Response)

  const NotLoggedIn: string := "Unauthorized - not logged in"
  const UserNotFound: string := "User not found"

  /** Store invariant: keys are ids, weekly arrays have seven entries, `email` is unique. */
  ghost predicate UsersValid(users: map<UserId, User>) {
    && (forall id | id in users :: users[id].id == id && WellFormed(users[id]))
    && (forall a, b | a in users && b in users && users[a].email == users[b].email :: a == b)
  }

  ghost predicate EmailTaken(users: map<UserId, User>, email: string) {
    exists id | id in users :: users[id].email == email
  }

  /** `User.findOne({ email })` on a store whose emails are unique. */
  ghost function EmailOwner(users: map<UserId, User>, email: string): (r: Option<UserId>)
    requires UsersValid(users)
    ensures r.Some? <==> EmailTaken(users, email)
    ensures r.Some? ==> r.value in users && users[r.value].email == email
  {
    if EmailTaken(users, email) then
      var id :| id in users && users[id].email == email; Some(id)
    else
      None
  }

  /** The collections as the handlers see them. */
  class Database {
    var users: map<UserId, User>
    var reports: seq<Report>

    ghost predicate Valid()
      reads this
    {
      UsersValid(users)
    }

    function Snapshot(): State
      reads this
    {
      State(users, reports)
    }

    constructor ()
      ensures Valid() && users == map[] && reports == []
    {
      users := map[];
      reports := [];
    }

    /** `User.findOne({ email })`: scans the collection for the one user with that email. */
    method FindOne(email: string) returns (r: Option<UserId>)
      requires Valid()
      ensures r == EmailOwner(users, email)
    {
      var rest := users.Keys;
      r := None;
      while rest != {}
        invariant rest <= users.Keys
        invariant r.Some? ==> r.value in users && users[r.value].email == email
        invariant r.None? ==> forall id | id in users.Keys - rest :: users[id].email != email
        decreases rest
      {
        var id :| id in rest;
        if users[id].email == email {
          r := Some(id);
        }
        rest := rest - {id};
      }
    }
  }
}
