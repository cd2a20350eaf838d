/** The `Report` document (backend/models/Report.js). */
module ReportModel {
  import opened Wrappers
  import opened Js
  import opened UserModel

  /** The eighteen optional health fields a report stores, as the body supplies them. */
  datatype Metrics = Metrics(
    weight: JsValue,
    height: JsValue,
    bodyTemperature: JsValue,
    heartRate: JsValue,
    bloodPressure: JsValue,
    oxygenSaturation: JsValue,
    bloodSugar: JsValue,
    waterIntake: JsValue,
    mealTimes: JsValue,
    calorieIntake: JsValue,
    macronutrients: JsValue,
    exerciseMinutes: JsValue,
    stepCount: JsValue,
    sleepDuration: JsValue,
    sleepQuality: JsValue,
    workoutType: JsValue,
    moodLevel: JsValue,
    stressLevel: JsValue)

  /** A stored report; `createdAt` and `updatedAt` come from the schema's timestamps. */
  datatype Report = Report(
    userId: UserId,
    metrics: Metrics,
    aiAnalysis: Option<string>,
    createdAt: Time,
    updatedAt: Time)

  /** The body of a report submission: the metrics plus the client's `aiAnalysis`. */
  datatype ReportBody = ReportBody(metrics: Metrics, aiAnalysis: JsValue)
}
