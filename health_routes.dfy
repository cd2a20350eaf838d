/**
 * The health-metric routes (backend/routes/healthRoutes.js): `/bmi`,
 * `/heartrate`, `/steps` and `/cals`. Each loads the session user, changes
 * that one document in place and saves it.
 */
module HealthRoutes {
  import opened Wrappers
  import opened Js
  import opened UserModel
  import opened Store

  /** The fields `/bmi` reads from the body. */
  datatype BmiBody = BmiBody(height: JsValue, weight: JsValue, age: JsValue)

  const BmiSavedText: string := "Latest BMI data updated successfully"
  const HeartRateShape: string := "heartRateWeek must be an array of 7 numbers"
  const HeartRateSavedText: string := "Heart rate updated successfully"
  const StepsShape: string := "stepsWeek must be an array of 7 numbers"
  const StepsSavedText: string := "Steps updated successfully"
  const CaloriesSavedText: string := "Calorie record added successfully"

  /** `computedBmi`: a value only when height and weight are both truthy, null otherwise. */
  function ComputedBmi(height: JsValue, weight: JsValue): (b: BmiField)
    ensures b != BmiUnset
    ensures b.BmiOf? <==> Truthy(height) && Truthy(weight)
    ensures b.BmiOf? ==> b.height == height && b.weight == weight
  {
    if Truthy(height) && Truthy(weight) then BmiOf(height, weight) else BmiNull
  }

  /** The shape check of `/heartrate` and `/steps`: an array of length seven, elements unchecked. */
  predicate IsWeekArray(v: JsValue) {
    v.Arr? && |v.items| == WeekLength
  }

  // ---------------------------------------------------------------------------
  // Specifications

  /**
   * POST /bmi: 401 without a session, 404 for a vanished user, otherwise the
   * four `latest*` fields are overwritten, falsy inputs becoming null, and echoed.
   */
  ghost function Bmi(st: State, session: Session, body: BmiBody): (r: Result)
    ensures r.session == session && r.state.reports == st.reports
    ensures r.res.status == 200 <==> session.Some? && session.value in st.users
    ensures r.res.status != 200 ==> r.state == st
    ensures session.None? ==> r.res == Response(401, Fail(ErrorKey, NotLoggedIn))
    ensures session.Some? && session.value !in st.users ==> r.res == Response(404, Fail(ErrorKey, UserNotFound))
    ensures r.res.status == 200 ==>
      r.res.body == BmiSaved(BmiSavedText, ComputedBmi(body.height, body.weight),
                             OrNull(body.height), OrNull(body.weight), OrNull(body.age))
    ensures r.res.status == 200 ==>
      var u := st.users[session.value];
      && r.state.users == st.users[session.value := u.(latestHeight := OrNull(body.height),
                                                       latestWeight := OrNull(body.weight),
                                                       latestAge := OrNull(body.age),
                                                       latestBmi := ComputedBmi(body.height, body.weight))]
  {
    if session.None? then
      Result(st, session, Response(401, Fail(ErrorKey, NotLoggedIn)))
    else if session.value !in st.users then
      Result(st, session, Response(404, Fail(ErrorKey, UserNotFound)))
    else
      var u := st.users[session.value];
      var u' := u.(latestHeight := OrNull(body.height), latestWeight := OrNull(body.weight),
                   latestAge := OrNull(body.age), latestBmi := ComputedBmi(body.height, body.weight));
      Result(st.(users := st.users[session.value := u']), session,
             Response(200, BmiSaved(BmiSavedText, u'.latestBmi, u'.latestHeight, u'.latestWeight, u'.latestAge)))
  }

  /**
   * POST /heartrate and POST /steps: 401 without a session, 400 unless the
   * body holds a seven-element array, 404 for a vanished user, otherwise the
   * week is replaced and echoed.
   */
  ghost function Week(st: State, session: Session, week: JsValue, steps: bool): (r: Result)
    ensures r.session == session && r.state.reports == st.reports
    ensures r.res.status == 200 <==> session.Some? && IsWeekArray(week) && session.value in st.users
    ensures r.res.status != 200 ==> r.state == st
    ensures session.None? ==> r.res == Response(401, Fail(MessageKey, NotLoggedIn))
    ensures session.Some? && !IsWeekArray(week) ==>
      r.res == Response(400, Fail(MessageKey, if steps then StepsShape else HeartRateShape))
    ensures session.Some? && IsWeekArray(week) && session.value !in st.users ==>
      r.res == Response(404, Fail(MessageKey, UserNotFound))
    ensures r.res.status == 200 ==>
      var u := st.users[session.value];
      && r.res.body == WeekSaved(if steps then StepsSavedText else HeartRateSavedText, week.items)
      && r.state.users == st.users[session.value := if steps then u.(stepsWeek := week.items)
                                                    else u.(heartRateWeek := week.items)]
  {
    if session.None? then
      Result(st, session, Response(401, Fail(MessageKey, NotLoggedIn)))
    else if !IsWeekArray(week) then
      Result(st, session, Response(400, Fail(MessageKey, if steps then StepsShape else HeartRateShape)))
    else if session.value !in st.users then
      Result(st, session, Response(404, Fail(MessageKey, UserNotFound)))
    else
      var u := st.users[session.value];
      var u' := if steps then u.(stepsWeek := week.items) else u.(heartRateWeek := week.items);
      Result(st.(users := st.users[session.value := u']), session,
             Response(200, WeekSaved(if steps then StepsSavedText else HeartRateSavedText, week.items)))
  }

  /** POST /cals: 401 without a session, 404 for a vanished user, otherwise one record is appended, earlier records untouched. */
  ghost function Cals(st: State, session: Session, burned: JsValue, consumed: JsValue, now: Time): (r: Result)
    ensures r.session == session && r.state.reports == st.reports
    ensures r.res.status == 200 <==> session.Some? && session.value in st.users
    ensures r.res.status != 200 ==> r.state == st
    ensures session.None? ==> r.res == Response(401, Fail(MessageKey, NotLoggedIn))
    ensures session.Some? && session.value !in st.users ==> r.res == Response(404, Fail(MessageKey, UserNotFound))
    ensures r.res.status == 200 ==>
      var u := st.users[session.value];
      var records := u.calorieRecords + [NewCalorieRecord(now, burned, consumed)];
      && r.state.users == st.users[session.value := u.(calorieRecords := records)]
      && r.res.body == CaloriesSaved(CaloriesSavedText, records)
  {
    if session.None? then
      Result(st, session, Response(401, Fail(MessageKey, NotLoggedIn)))
    else if session.value !in st.users then
      Result(st, session, Response(404, Fail(MessageKey, UserNotFound)))
    else
      var u := st.users[session.value];
      var u' := u.(calorieRecords := u.calorieRecords + [NewCalorieRecord(now, burned, consumed)]);
      Result(st.(users := st.users[session.value := u']), session,
             Response(200, CaloriesSaved(CaloriesSavedText, u'.calorieRecords)))
  }

  /** The 400 of `/heartrate` and `/steps` is decided before the store is read: it is the same whatever the store holds. */
  lemma ShapeCheckPrecedesLookup(st1: State, st2: State, session: Session, week: JsValue, steps: bool)
    requires session.Some? && !IsWeekArray(week)
    ensures Week(st1, session, week, steps).res == Week(st2, session, week, steps).res
    ensures Week(st1, session, week, steps).res.status == 400
  {
  }

  // ---------------------------------------------------------------------------
  // Handlers

  method PostBmi(db: Database, session: Session, body: BmiBody) returns (res: Response)
    requires db.Valid()
    modifies db
    ensures db.Valid()
    ensures Result(db.Snapshot(), session, res) == Bmi(old(db.Snapshot()), session, body)
  {
    if session.None? {
      return Response(401, Fail(ErrorKey, NotLoggedIn));
    }
    var userId := session.value;
    var computedBmi := ComputedBmi(body.height, body.weight);
    if userId !in db.users {
      return Response(404, Fail(ErrorKey, UserNotFound));
    }
    var user := db.users[userId];
    user := user.(latestHeight := OrNull(body.height));
    user := user.(latestWeight := OrNull(body.weight));
    user := user.(latestAge := OrNull(body.age));
    user := user.(latestBmi := computedBmi);
    db.users := db.users[userId := user];
    res := Response(200, BmiSaved(BmiSavedText, user.latestBmi, user.latestHeight, user.latestWeight, user.latestAge));
  }

  method PostHeartRate(db: Database, session: Session, heartRateWeek: JsValue) returns (res: Response)
    requires db.Valid()
    modifies db
    ensures db.Valid()
    ensures Result(db.Snapshot(), session, res) == Week(old(db.Snapshot()), session, heartRateWeek, false)
  {
    if session.None? {
      return Response(401, Fail(MessageKey, NotLoggedIn));
    }
    var userId := session.value;
    if !heartRateWeek.Arr? || |heartRateWeek.items| != 7 {
      return Response(400, Fail(MessageKey, HeartRateShape));
    }
    if userId !in db.users {
      return Response(404, Fail(MessageKey, UserNotFound));
    }
    var user := db.users[userId];
    user := user.(heartRateWeek := heartRateWeek.items);
    db.users := db.users[userId := user];
    res := Response(200, WeekSaved(HeartRateSavedText, user.heartRateWeek));
  }

  method PostSteps(db: Database, session: Session, stepsWeek: JsValue) returns (res: Response)
    requires db.Valid()
    modifies db
    ensures db.Valid()
    ensures Result(db.Snapshot(), session, res) == Week(old(db.Snapshot()), session, stepsWeek, true)
  {
    if session.None? {
      return Response(401, Fail(MessageKey, NotLoggedIn));
    }
    var userId := session.value;
    if !stepsWeek.Arr? || |stepsWeek.items| != 7 {
      return Response(400, Fail(MessageKey, StepsShape));
    }
    if userId !in db.users {
      return Response(404, Fail(MessageKey, UserNotFound));
    }
    var user := db.users[userId];
    user := user.(stepsWeek := stepsWeek.items);
    db.users := db.users[userId := user];
    res := Response(200, WeekSaved(StepsSavedText, user.stepsWeek));
  }

  method PostCals(db: Database, session: Session, burned: JsValue, consumed: JsValue, now: Time)
    returns (res: Response)
    requires db.Valid()
    modifies db
    ensures db.Valid()
    ensures Result(db.Snapshot(), session, res) == Cals(old(db.Snapshot()), session, burned, consumed, now)
  {
    if session.None? {
      return Response(401, Fail(MessageKey, NotLoggedIn));
    }
    var userId := session.value;
    if userId !in db.users {
      return Response(404, Fail(MessageKey, UserNotFound));
    }
    var user := db.users[userId];
    user := user.(calorieRecords := user.calorieRecords + [CalorieRecord(now, NumberOrZero(burned), NumberOrZero(consumed))]);
    db.users := db.users[userId := user];
    res := Response(200, CaloriesSaved(CaloriesSavedText, user.calorieRecords));
  }
}
