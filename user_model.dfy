/** The `User` document: its fields, required paths and defaults (backend/models/User.js). */
module UserModel {
  import opened Wrappers
  import opened Js

  /** A document id (an ObjectId). */
  type UserId = nat

  /** A timestamp, as `Date.now` stamps it. */
  type Time = nat

  /** The bcrypt work factor the register handler passes. */
  const HashCost: nat := 12

  /** The length the client and the handlers give `heartRateWeek` and `stepsWeek`. */
  const WeekLength: nat := 7

  /**
   * A bcrypt digest. bcrypt itself is not modelled: the digest records what
   * it was computed from, and only `Verify` looks inside it.
   */
  datatype Digest = Digest(cost: nat, salt: nat, preimage: string)

  /** `bcrypt.hash(password, 12)` with the salt bcrypt draws. */
  function Hash(password: string, salt: nat): (d: Digest)
    ensures d.cost == HashCost
    ensures forall p :: Verify(p, d) <==> p == password
  {
    Digest(HashCost, salt, password)
  }

  /** `bcrypt.compare(password, digest)`. */
  predicate Verify(password: string, d: Digest) {
    d.preimage == password
  }

  /** An entry of `gameScores`. */
  datatype GameScore = GameScore(date: Time, score: JsValue)

  /** An entry of `calorieRecords`. */
  datatype CalorieRecord = CalorieRecord(dateCreated: Time, burned: real, consumed: real)

  /** `latestBmi`: absent until the first BMI submission, then null or the computed value. */
  datatype BmiField =
    | BmiUnset
    | BmiNull
    | BmiOf(height: JsValue, weight: JsValue) // weight / (height / 100)^2, to two decimals

  datatype User = User(
    id: UserId,
    email: string,
    password: Digest,
    username: string,
    gender: string,
    age: real,
    gameScores: seq<GameScore>,
    latestBmi: BmiField,
    latestHeight: JsValue,
    latestWeight: JsValue,
    latestAge: JsValue,
    heartRateWeek: seq<JsValue>,
    stepsWeek: seq<JsValue>,
    calorieRecords: seq<CalorieRecord>)

  /** The user as the profile route returns it: every path but `password`. */
  datatype ProfileView = ProfileView(
    id: UserId,
    email: string,
    username: string,
    gender: string,
    age: real,
    gameScores: seq<GameScore>,
    latestBmi: BmiField,
    latestHeight: JsValue,
    latestWeight: JsValue,
    latestAge: JsValue,
    heartRateWeek: seq<JsValue>,
    stepsWeek: seq<JsValue>,
    calorieRecords: seq<CalorieRecord>)

  /** The default of `heartRateWeek` and `stepsWeek`: seven zeros. */
  function ZeroWeek(): seq<JsValue> {
    seq(WeekLength, _ => Number(Finite(0.0)))
  }

  /** What the handlers keep true of every stored user: both weekly arrays have seven entries. */
  predicate WellFormed(u: User) {
    |u.heartRateWeek| == WeekLength && |u.stepsWeek| == WeekLength
  }

  /** Mongoose's `required` check on a string path: present and not empty. */
  predicate PresentString(v: Option<string>) {
    v.Some? && v.value != ""
  }

  /**
   * `new User({...}).save()`: None when validation of a required path fails,
   * otherwise the new document with every other path at its default.
   */
  function CreateUser(id: UserId, email: Option<string>, password: Digest, username: Option<string>,
                      gender: Option<string>, age: Option<real>): (r: Option<User>)
    ensures r.Some? <==> PresentString(email) && PresentString(username) && PresentString(gender) && age.Some?
    ensures r.Some? ==>
      && r.value.id == id && r.value.email == email.value && r.value.password == password
      && r.value.username == username.value && r.value.gender == gender.value && r.value.age == age.value
    ensures r.Some? ==>
      && WellFormed(r.value)
      && (forall i | 0 <= i < WeekLength :: r.value.heartRateWeek[i] == Number(Finite(0.0)))
      && r.value.stepsWeek == r.value.heartRateWeek
      && r.value.gameScores == [] && r.value.calorieRecords == []
      && r.value.latestBmi == BmiUnset && r.value.latestHeight == Undefined
      && r.value.latestWeight == Undefined && r.value.latestAge == Undefined
  {
    if PresentString(email) && PresentString(username) && PresentString(gender) && age.Some? then
      Some(User(id, email.value, password, username.value, gender.value, age.value,
                [], BmiUnset, Undefined, Undefined, Undefined, ZeroWeek(), ZeroWeek(), []))
    else
      None
  }

  /** `findById(id).select("-password")`. */
  function Profile(u: User): ProfileView {
    ProfileView(u.id, u.email, u.username, u.gender, u.age, u.gameScores, u.latestBmi,
                u.latestHeight, u.latestWeight, u.latestAge, u.heartRateWeek, u.stepsWeek,
                u.calorieRecords)
  }

  /** The profile carries nothing of the password: two users that differ only there look the same. */
  lemma ProfileExcludesPassword(u: User, d: Digest)
    ensures Profile(u.(password := d)) == Profile(u)
    ensures Profile(u).id == u.id && Profile(u).email == u.email && Profile(u).heartRateWeek == u.heartRateWeek
  {
  }

  /** A game-score entry: `score` falls back to the schema default 0 when the body leaves it undefined. */
  function NewGameScore(date: Time, score: JsValue): (g: GameScore)
    ensures g.date == date
    ensures score != Undefined ==> g.score == score
    ensures score == Undefined ==> g.score == Number(Finite(0.0))
  {
    GameScore(date, if score == Undefined then Number(Finite(0.0)) else score)
  }

  /** A calorie record from `{burned: Number(b) || 0, consumed: Number(c) || 0}`, stamped `date_created`. */
  function NewCalorieRecord(now: Time, burned: JsValue, consumed: JsValue): (c: CalorieRecord)
    ensures c.dateCreated == now
    ensures ToNumber(burned).NaN? ==> c.burned == 0.0
    ensures ToNumber(burned).Finite? ==> c.burned == ToNumber(burned).value
    ensures ToNumber(consumed).NaN? ==> c.consumed == 0.0
    ensures ToNumber(consumed).Finite? ==> c.consumed == ToNumber(consumed).value
  {
    CalorieRecord(now, NumberOrZero(burned), NumberOrZero(consumed))
  }
}
