/**
 * The health monitor screen (frontend/screens/Monitor.js): three charts fed by
 * the profile, three input forms whose entries are parsed with
 * `parseInt(x) || 0` and refused when any value is not above zero, and the
 * fetch that redraws the charts from the stored profile.
 */
module MonitorScreen {
  import opened Wrappers
  import opened Js
  import opened UserModel
  import opened Store
  import opened AuthRoutes
  import opened HealthRoutes

  // ---------------------------------------------------------------------------
  // Input validation

  /**
   * The values a weekly submission sends, or None when it is refused (see
   * ValidatedInputsSpec).
   */
  function ValidatedInputs(inputs: seq<string>): Option<seq<int>> {
    var values := seq(|inputs|, i requires 0 <= i < |inputs| => ParseIntOrZero(inputs[i]));
    if exists i | 0 <= i < |values| :: values[i] <= 0 then None else Some(values)
  }

  /** `parseInt(s) || 0` is above zero exactly when parseInt reads a number above zero. */
  lemma PositiveOrZero(s: string)
    ensures ParseIntOrZero(s) > 0 <==> ParseInt(s).Some? && ParseInt(s).value > 0
    ensures ParseIntOrZero(s) > 0 ==> Some(ParseIntOrZero(s)) == ParseInt(s)
  {
  }

  /**
   * A week is refused exactly when some entry cannot be read by parseInt or
   * reads as zero or less; an accepted week sends what parseInt read.
   */
  lemma ValidatedInputsSpec(inputs: seq<string>)
    ensures ValidatedInputs(inputs).Some? <==>
      forall i | 0 <= i < |inputs| :: ParseInt(inputs[i]).Some? && ParseInt(inputs[i]).value > 0
    ensures ValidatedInputs(inputs).Some? ==>
      var v := ValidatedInputs(inputs).value;
      |v| == |inputs| && forall i | 0 <= i < |inputs| :: Some(v[i]) == ParseInt(inputs[i])
  {
    var values := seq(|inputs|, i requires 0 <= i < |inputs| => ParseIntOrZero(inputs[i]));
    forall i | 0 <= i < |inputs| {
      PositiveOrZero(inputs[i]);
    }
    if ValidatedInputs(inputs).None? {
      var i :| 0 <= i < |values| && values[i] <= 0;
      assert !(ParseInt(inputs[i]).Some? && ParseInt(inputs[i]).value > 0);
    } else {
      forall i | 0 <= i < |inputs|
        ensures ParseInt(inputs[i]).Some? && ParseInt(inputs[i]).value > 0
      {
        assert values[i] > 0;
      }
    }
  }

  /** The two calorie entries, or None when the submission is refused (see ValidatedCaloriesSpec). */
  function ValidatedCalories(burned: string, consumed: string): Option<(int, int)> {
    var newBurned := ParseIntOrZero(burned);
    var newConsumed := ParseIntOrZero(consumed);
    if newBurned <= 0 || newConsumed <= 0 then None else Some((newBurned, newConsumed))
  }

  /** Refused unless both entries read as numbers above zero; an accepted pair is what parseInt read. */
  lemma ValidatedCaloriesSpec(burned: string, consumed: string)
    ensures ValidatedCalories(burned, consumed).Some? <==>
      ParseInt(burned).Some? && ParseInt(burned).value > 0 && ParseInt(consumed).Some? && ParseInt(consumed).value > 0
    ensures ValidatedCalories(burned, consumed).Some? ==>
      var v := ValidatedCalories(burned, consumed).value;
      Some(v.0) == ParseInt(burned) && Some(v.1) == ParseInt(consumed)
  {
    PositiveOrZero(burned);
    PositiveOrZero(consumed);
  }

  /** The integers as JSON numbers. */
  function AsJs(values: seq<int>): (r: seq<JsValue>)
    ensures |r| == |values|
  {
    seq(|values|, i requires 0 <= i < |values| => Number(Finite(values[i] as real)))
  }

  // ---------------------------------------------------------------------------
  // Redrawing from the profile

  /** A calorie record as the screen reads it from JSON. */
  datatype FetchedCalorie = FetchedCalorie(burned: JsValue, consumed: JsValue)

  /** The fields of the fetched user that the charts read; a missing field is `Undefined` or None. */
  datatype FetchedUser = FetchedUser(heartRateWeek: JsValue, stepsWeek: JsValue, calorieRecords: Option<seq<FetchedCalorie>>)

  /** What the three charts draw. */
  datatype Charts = Charts(heartRate: JsValue, steps: JsValue, calories: seq<JsValue>)

  /** `v || 0`. */
  function OrZero(v: JsValue): (r: JsValue)
    ensures Truthy(r) ==> r == v
  {
    if Truthy(v) then v else Number(Finite(0.0))
  }

  /**
   * The chart update after a fetch: each weekly chart is overwritten only by
   * a present field, and the calorie chart shows the last record, missing
   * amounts as zero, or stays as it was when there is no record.
   */
  function AfterFetch(c: Charts, user: FetchedUser): (r: Charts)
    ensures r.heartRate == if Truthy(user.heartRateWeek) then user.heartRateWeek else c.heartRate
    ensures r.steps == if Truthy(user.stepsWeek) then user.stepsWeek else c.steps
    ensures user.calorieRecords.None? || user.calorieRecords.value == [] ==> r.calories == c.calories
    ensures user.calorieRecords.Some? && user.calorieRecords.value != [] ==>
      var last := user.calorieRecords.value[|user.calorieRecords.value| - 1];
      r.calories == [OrZero(last.burned), OrZero(last.consumed)]
  {
    var heartRate := if Truthy(user.heartRateWeek) then user.heartRateWeek else c.heartRate;
    var steps := if Truthy(user.stepsWeek) then user.stepsWeek else c.steps;
    var calories :=
      if user.calorieRecords.Some? && |user.calorieRecords.value| > 0 then
        var lastCal := user.calorieRecords.value[|user.calorieRecords.value| - 1];
        [OrZero(lastCal.burned), OrZero(lastCal.consumed)]
      else c.calories;
    Charts(heartRate, steps, calories)
  }

  /** The profile route's user as JSON reaches the screen. */
  function FromProfile(p: ProfileView): FetchedUser {
    var records := seq(|p.calorieRecords|, i requires 0 <= i < |p.calorieRecords| =>
      FetchedCalorie(Number(Finite(p.calorieRecords[i].burned)), Number(Finite(p.calorieRecords[i].consumed))));
    FetchedUser(Arr(p.heartRateWeek), Arr(p.stepsWeek), Some(records))
  }

  /**
   * A week the screen accepts passes the backend's shape check, and once it is
   * stored the next profile fetch draws exactly what was sent.
   */
  lemma SubmittedWeekIsShown(st: State, uid: UserId, inputs: seq<string>, steps: bool, c: Charts)
    requires uid in st.users && |inputs| == WeekLength && ValidatedInputs(inputs).Some?
    ensures var body := Arr(AsJs(ValidatedInputs(inputs).value));
      var w := Week(st, Some(uid), body, steps);
      var p := ProfileResult(w.state, Some(uid));
      && IsWeekArray(body) && w.res.status == 200
      && p.res.body.ProfileBody?
      && (if steps then AfterFetch(c, FromProfile(p.res.body.user)).steps
          else AfterFetch(c, FromProfile(p.res.body.user)).heartRate) == body
  {
  }

  /** Accepted calories, once stored, are what the next fetch draws. */
  lemma SubmittedCaloriesAreShown(st: State, uid: UserId, burned: string, consumed: string, now: Time, c: Charts)
    requires uid in st.users && ValidatedCalories(burned, consumed).Some?
    ensures var v := ValidatedCalories(burned, consumed).value;
      var b, k := Number(Finite(v.0 as real)), Number(Finite(v.1 as real));
      var w := Cals(st, Some(uid), b, k, now);
      var p := ProfileResult(w.state, Some(uid));
      && w.res.status == 200 && p.res.body.ProfileBody?
      && AfterFetch(c, FromProfile(p.res.body.user)).calories == [b, k]
  {
    var v := ValidatedCalories(burned, consumed).value;
    var b, k := Number(Finite(v.0 as real)), Number(Finite(v.1 as real));
    var w := Cals(st, Some(uid), b, k, now);
    var records := w.state.users[uid].calorieRecords;
    assert records[|records| - 1] == NewCalorieRecord(now, b, k);
  }

  // ---------------------------------------------------------------------------
  // The screen

  class Monitor {
    var loading: bool
    var profile: Option<FetchedUser>
    var heartRateData: JsValue
    var stepsData: JsValue
    var caloriesData: seq<JsValue>
    var heartRateModal: bool
    var stepsModal: bool
    var caloriesModal: bool
    var heartRateInput: seq<string>
    var stepsInput: seq<string>
    var caloriesInput: seq<string>

    /** Seven entries per weekly form, two calorie entries, two calorie figures. */
    ghost predicate Valid()
      reads this
    {
      |heartRateInput| == WeekLength && |stepsInput| == WeekLength && |caloriesInput| == 2 && |caloriesData| == 2
    }

    function Drawn(): Charts
      reads this
    {
      Charts(heartRateData, stepsData, caloriesData)
    }

    constructor ()
      ensures Valid()
      ensures !loading && profile == None
      ensures heartRateData == Arr(ZeroWeek()) && stepsData == Arr(ZeroWeek())
      ensures caloriesData == [Number(Finite(0.0)), Number(Finite(0.0))]
      ensures !heartRateModal && !stepsModal && !caloriesModal
      ensures (forall i | 0 <= i < WeekLength :: heartRateInput[i] == "" && stepsInput[i] == "")
      ensures caloriesInput == ["", ""]
    {
      loading := false;
      profile := None;
      heartRateData := Arr(ZeroWeek());
      stepsData := Arr(ZeroWeek());
      caloriesData := [Number(Finite(0.0)), Number(Finite(0.0))];
      heartRateModal := false;
      stepsModal := false;
      caloriesModal := false;
      heartRateInput := seq(WeekLength, _ => "");
      stepsInput := seq(WeekLength, _ => "");
      caloriesInput := ["", ""];
    }

    /** Typing into one entry of a form. */
    method EditInput(form: nat, index: nat, text: string)
      requires Valid() && form < 3
      requires index < if form == 2 then 2 else WeekLength
      modifies this
      ensures Valid() && Drawn() == old(Drawn())
      ensures heartRateInput == if form == 0 then old(heartRateInput)[index := text] else old(heartRateInput)
      ensures stepsInput == if form == 1 then old(stepsInput)[index := text] else old(stepsInput)
      ensures caloriesInput == if form == 2 then old(caloriesInput)[index := text] else old(caloriesInput)
      ensures heartRateModal == old(heartRateModal) && stepsModal == old(stepsModal) && caloriesModal == old(caloriesModal)
      ensures loading == old(loading) && profile == old(profile)
    {
      if form == 0 {
        heartRateInput := heartRateInput[index := text];
      } else if form == 1 {
        stepsInput := stepsInput[index := text];
      } else {
        caloriesInput := caloriesInput[index := text];
      }
    }

    /** `fetchProfile` begins: the spinner shows. */
    method StartFetch()
      modifies this
      ensures loading
      ensures Drawn() == old(Drawn()) && profile == old(profile)
      ensures heartRateInput == old(heartRateInput) && stepsInput == old(stepsInput) && caloriesInput == old(caloriesInput)
      ensures heartRateModal == old(heartRateModal) && stepsModal == old(stepsModal) && caloriesModal == old(caloriesModal)
    {
      loading := true;
    }

    /**
     * `fetchProfile` ends: on success the profile is kept and the charts are
     * redrawn from it; on failure (None) only the spinner goes away.
     */
    method FetchDone(fetched: Option<FetchedUser>)
      requires Valid()
      modifies this
      ensures Valid() && !loading
      ensures fetched.None? ==> profile == old(profile) && Drawn() == old(Drawn())
      ensures fetched.Some? ==> profile == fetched && Drawn() == AfterFetch(old(Drawn()), fetched.value)
      ensures heartRateInput == old(heartRateInput) && stepsInput == old(stepsInput) && caloriesInput == old(caloriesInput)
      ensures heartRateModal == old(heartRateModal) && stepsModal == old(stepsModal) && caloriesModal == old(caloriesModal)
    {
      if fetched.Some? {
        var user := fetched.value;
        profile := Some(user);
        if Truthy(user.heartRateWeek) {
          heartRateData := user.heartRateWeek;
        }
        if Truthy(user.stepsWeek) {
          stepsData := user.stepsWeek;
        }
        if user.calorieRecords.Some? && |user.calorieRecords.value| > 0 {
          var lastCal := user.calorieRecords.value[|user.calorieRecords.value| - 1];
          caloriesData := [OrZero(lastCal.burned), OrZero(lastCal.consumed)];
        }
      }
      loading := false;
    }

    /**
     * `updateHeartRate`: a refused week changes nothing and sends nothing; an
     * accepted one is drawn and the form closes before the request, whose
     * `heartRateWeek` is returned, is sent.
     */
    method UpdateHeartRate() returns (request: Option<JsValue>)
      requires Valid()
      modifies this
      ensures Valid()
      ensures ValidatedInputs(old(heartRateInput)).None? ==> request.None? && unchanged(this)
      ensures ValidatedInputs(old(heartRateInput)).Some? ==>
        && request == Some(Arr(AsJs(ValidatedInputs(old(heartRateInput)).value)))
        && IsWeekArray(request.value)
        && heartRateData == request.value && !heartRateModal
        && stepsData == old(stepsData) && caloriesData == old(caloriesData)
        && stepsModal == old(stepsModal) && caloriesModal == old(caloriesModal)
        && heartRateInput == old(heartRateInput) && stepsInput == old(stepsInput) && caloriesInput == old(caloriesInput)
        && loading == old(loading) && profile == old(profile)
    {
      var newValues := ValidatedInputs(heartRateInput);
      if newValues.None? {
        return None;
      }
      heartRateData := Arr(AsJs(newValues.value));
      heartRateModal := false;
      request := Some(heartRateData);
    }

    /** `updateSteps`: the same rule for the steps form. */
    method UpdateSteps() returns (request: Option<JsValue>)
      requires Valid()
      modifies this
      ensures Valid()
      ensures ValidatedInputs(old(stepsInput)).None? ==> request.None? && unchanged(this)
      ensures ValidatedInputs(old(stepsInput)).Some? ==>
        && request == Some(Arr(AsJs(ValidatedInputs(old(stepsInput)).value)))
        && IsWeekArray(request.value)
        && stepsData == request.value && !stepsModal
        && heartRateData == old(heartRateData) && caloriesData == old(caloriesData)
        && heartRateModal == old(heartRateModal) && caloriesModal == old(caloriesModal)
        && heartRateInput == old(heartRateInput) && stepsInput == old(stepsInput) && caloriesInput == old(caloriesInput)
        && loading == old(loading) && profile == old(profile)
    {
      var newValues := ValidatedInputs(stepsInput);
      if newValues.None? {
        return None;
      }
      stepsData := Arr(AsJs(newValues.value));
      stepsModal := false;
      request := Some(stepsData);
    }

    /** `updateCalories`: both amounts must be above zero; the request carries `burned` and `consumed`. */
    method UpdateCalories() returns (request: Option<(JsValue, JsValue)>)
      requires Valid()
      modifies this
      ensures Valid()
      ensures ValidatedCalories(old(caloriesInput[0]), old(caloriesInput[1])).None? ==> request.None? && unchanged(this)
      ensures ValidatedCalories(old(caloriesInput[0]), old(caloriesInput[1])).Some? ==>
        var v := ValidatedCalories(old(caloriesInput[0]), old(caloriesInput[1])).value;
        && request == Some((Number(Finite(v.0 as real)), Number(Finite(v.1 as real))))
        && caloriesData == [request.value.0, request.value.1] && !caloriesModal
        && heartRateData == old(heartRateData) && stepsData == old(stepsData)
        && heartRateModal == old(heartRateModal) && stepsModal == old(stepsModal)
        && heartRateInput == old(heartRateInput) && stepsInput == old(stepsInput) && caloriesInput == old(caloriesInput)
        && loading == old(loading) && profile == old(profile)
    {
      var amounts := ValidatedCalories(caloriesInput[0], caloriesInput[1]);
      if amounts.None? {
        return None;
      }
      var newBurned, newConsumed := Number(Finite(amounts.value.0 as real)), Number(Finite(amounts.value.1 as real));
      caloriesData := [newBurned, newConsumed];
      caloriesModal := false;
      request := Some((newBurned, newConsumed));
    }
  }
}
