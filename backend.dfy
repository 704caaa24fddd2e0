/** The prediction service (backend/main.py): request bounds, the decision rule
    applied to the classifier's two class probabilities, the response fields,
    and the 503 guards on missing artifacts. */
module Backend {
  import opened Wrappers
  import opened Json
  import opened Wire

  /** The pass probability at or above which the service answers "Pass". */
  const PassThreshold: real := 0.65

  const InterpretabilityText :=
    "Result based on a 0.65 decision threshold. Confidence score represents the model's certainty."

  const ModelUnavailable := "Model unavailable"
  const MetricsUnavailable := "Metrics not available"

  /** One failed `Field(ge=lo, le=hi)` constraint of the request model. */
  datatype Violation = BelowMinimum(field: string, ge: real) | AboveMaximum(field: string, le: real)

  /** The inclusive range a numeric request field must lie in. */
  predicate InRange(x: real, lo: real, hi: real) {
    lo <= x <= hi
  }

  /** The `Field(ge=…, le=…)` bounds, by field name. */
  const Bounds: map<string, (real, real)> := map[
    StudyHours := (0.0, 60.0),
    AttendancePercentage := (0.0, 100.0),
    PreviousGrade := (0.0, 100.0),
    SleepHours := (0.0, 24.0)]

  /** The constraints of `StudentFeatures`: each numeric field lies within its
      bounds from the table; the three string fields are unconstrained. */
  predicate WithinBounds(f: StudentFeatures)
    ensures WithinBounds(f) <==>
              && InRange(f.study_hours, 0.0, 60.0)
              && InRange(f.attendance_percentage, 0.0, 100.0)
              && InRange(f.previous_grade, 0.0, 100.0)
              && InRange(f.sleep_hours, 0.0, 24.0)
  {
    assert Bounds.Keys == NumericKeys;
    assert FieldOf(f, AttendancePercentage) == f.attendance_percentage;
    assert FieldOf(f, PreviousGrade) == f.previous_grade;
    assert FieldOf(f, SleepHours) == f.sleep_hours;
    forall k :: k in Bounds ==> InRange(FieldOf(f, k), Bounds[k].0, Bounds[k].1)
  }

  /** The check of one table entry: at most one violation, naming the field. */
  function CheckField(f: StudentFeatures, field: string): (r: seq<Violation>)
    requires field in Bounds
    ensures r == [] <==> InRange(FieldOf(f, field), Bounds[field].0, Bounds[field].1)
    ensures |r| <= 1
    ensures forall v :: v in r ==> v.field == field
  {
    var x := FieldOf(f, field);
    if x < Bounds[field].0 then [BelowMinimum(field, Bounds[field].0)]
    else if x > Bounds[field].1 then [AboveMaximum(field, Bounds[field].1)]
    else []
  }

  /** Every violated constraint, in declaration order of the fields, so the
      first item names the first out-of-range field. */
  function Violations(f: StudentFeatures): (r: seq<Violation>)
    ensures r == [] <==> WithinBounds(f)
    ensures forall v :: v in r ==> v.field in NumericKeys
    ensures !InRange(f.study_hours, 0.0, 60.0) <==> exists v :: v in r && v.field == StudyHours
    ensures !InRange(f.attendance_percentage, 0.0, 100.0) <==>
              exists v :: v in r && v.field == AttendancePercentage
    ensures !InRange(f.previous_grade, 0.0, 100.0) <==> exists v :: v in r && v.field == PreviousGrade
    ensures !InRange(f.sleep_hours, 0.0, 24.0) <==> exists v :: v in r && v.field == SleepHours
    ensures !InRange(f.study_hours, 0.0, 60.0) ==> r[0].field == StudyHours
    ensures InRange(f.study_hours, 0.0, 60.0) && !InRange(f.attendance_percentage, 0.0, 100.0) ==>
              r[0].field == AttendancePercentage
    ensures (InRange(f.study_hours, 0.0, 60.0) && InRange(f.attendance_percentage, 0.0, 100.0)
             && !InRange(f.previous_grade, 0.0, 100.0)) ==> r[0].field == PreviousGrade
    ensures (InRange(f.study_hours, 0.0, 60.0) && InRange(f.attendance_percentage, 0.0, 100.0)
             && InRange(f.previous_grade, 0.0, 100.0) && !InRange(f.sleep_hours, 0.0, 24.0)) ==>
              r[0].field == SleepHours
  {
    assert FieldOf(f, AttendancePercentage) == f.attendance_percentage;
    assert FieldOf(f, PreviousGrade) == f.previous_grade;
    assert FieldOf(f, SleepHours) == f.sleep_hours;
    CheckField(f, StudyHours) + CheckField(f, AttendancePercentage)
      + CheckField(f, PreviousGrade) + CheckField(f, SleepHours)
  }

  /** Request validation before the handler runs: the request is accepted
      unchanged exactly when every numeric field is within its inclusive bounds. */
  function Validate(f: StudentFeatures): (r: Result<StudentFeatures, seq<Violation>>)
    ensures r.Ok? <==> WithinBounds(f)
    ensures r.Ok? ==> r.value == f
    ensures r.Err? ==> r.error != [] && r.error == Violations(f)
  {
    var errors := Violations(f);
    if errors == [] then Ok(f) else Err(errors)
  }

  /** The 422 body: `{"detail": [{"msg": ...}, ...]}`, one item per violation.
      The wording of each message belongs to the validation library. */
  function ValidationBody(errors: seq<Violation>, wording: Violation -> string): (r: Json)
    ensures r.JObj? && Lookup(r.fields, "detail").Some?
    ensures Lookup(r.fields, "detail").value.JArr?
    ensures |Lookup(r.fields, "detail").value.items| == |errors|
    ensures forall i :: 0 <= i < |errors| ==>
              Lookup(r.fields, "detail").value.items[i] == JObj([("msg", JStr(wording(errors[i])))])
  {
    JObj([("detail", JArr(seq(|errors|, i requires 0 <= i < |errors| => JObj([("msg", JStr(wording(errors[i])))]))))])
  }

  /** The decision rule on the classifier's class probabilities. */
  function Decide(probFail: real, probPass: real): (r: PredictionResponse)
    ensures r.prediction == "Pass" || r.prediction == "Fail"
    ensures r.prediction == "Pass" <==> probPass >= PassThreshold
    ensures r.probability == Some(if r.prediction == "Pass" then probPass else probFail)
    ensures r.confidence_score.Some?
    ensures r.confidence_score.value >= probFail && r.confidence_score.value >= probPass
    ensures r.confidence_score.value == probFail || r.confidence_score.value == probPass
    ensures r.confidence_score.value >= r.probability.value
    ensures r.interpretability == Some(InterpretabilityText)
  {
    var prediction := if probPass >= PassThreshold then "Pass" else "Fail";
    PredictionResponse(
      prediction,
      Some(if prediction == "Pass" then probPass else probFail),
      Some(if probFail >= probPass then probFail else probPass),
      Some(InterpretabilityText))
  }

  /** What `model.predict_proba` yields for the one-row frame: the two class
      probabilities (fail first), or an exception with its message. */
  datatype Inference = Probabilities(fail: real, pass: real) | Raised(message: string)

  /** `POST /predict`. Body validation runs first (422), then the model guard
      (503), then inference (500 on an exception, otherwise the decision). */
  function PredictEndpoint(body: StudentFeatures, modelLoaded: bool, inference: Inference,
                           wording: Violation -> string): (r: Reply<PredictionResponse>)
    ensures !WithinBounds(body) ==> r == HttpFailure(422, ValidationBody(Violations(body), wording))
    ensures WithinBounds(body) && !modelLoaded ==> r == HttpFailure(503, DetailBody(ModelUnavailable))
    ensures r.Success? <==> WithinBounds(body) && modelLoaded && inference.Probabilities?
    ensures r.Success? ==> r.body == Decide(inference.fail, inference.pass)
    ensures WithinBounds(body) && modelLoaded && inference.Raised? ==>
              r == HttpFailure(500, DetailBody(inference.message))
  {
    match Validate(body)
    case Err(errors) => HttpFailure(422, ValidationBody(errors, wording))
    case Ok(features) =>
      if !modelLoaded then HttpFailure(503, DetailBody(ModelUnavailable))
      else
        match inference
        case Raised(message) => HttpFailure(500, DetailBody(message))
        case Probabilities(fail, pass) => Success(Decide(fail, pass))
  }

  /** `GET /metadata`: the loaded metrics unchanged, or 503 when none were loaded
      (a missing file, or a file holding JSON `null`, both leave `None` in Python). */
  function MetadataEndpoint(metrics: Option<Json>): (r: Reply<Json>)
    ensures r.Success? <==> metrics.Some? && metrics.value != JNull
    ensures r.Success? ==> r.body == metrics.value
    ensures r.HttpFailure? ==> r == HttpFailure(503, DetailBody(MetricsUnavailable))
  {
    if metrics.None? || metrics.value == JNull then HttpFailure(503, DetailBody(MetricsUnavailable))
    else Success(metrics.value)
  }

  datatype HealthReport = HealthReport(status: string, model_loaded: bool, mode: string)

  /** `GET /health`; `renderVar` is the RENDER environment variable, which counts
      as set when it is present and non-empty. */
  function Health(modelLoaded: bool, renderVar: Option<string>): (r: HealthReport)
    ensures r.status == "active"
    ensures r.model_loaded <==> modelLoaded
    ensures r.mode == "production" <==> renderVar.Some? && renderVar.value != ""
    ensures r.mode == "production" || r.mode == "development"
  {
    HealthReport("active", modelLoaded,
      if renderVar.Some? && renderVar.value != "" then "production" else "development")
  }

  /** A proper probability pair, as a fitted binary classifier returns it. */
  predicate Distribution(probFail: real, probPass: real) {
    0.0 <= probFail <= 1.0 && 0.0 <= probPass <= 1.0 && probFail + probPass == 1.0
  }

  /** For a proper distribution the reported probability lies in [0.35, 1]; for a
      "Pass" it is at least the threshold and equals the confidence score. */
  lemma ProbabilityBounds(probFail: real, probPass: real)
    requires Distribution(probFail, probPass)
    ensures var r := Decide(probFail, probPass);
      && 0.35 <= r.probability.value <= 1.0
      && (r.prediction == "Pass" ==> r.probability.value >= PassThreshold)
      && (r.prediction == "Pass" ==> r.confidence_score == r.probability)
  {
  }

  /** The two confidence keys disagree exactly for a "Fail" whose pass
      probability lies strictly between 0.5 and the threshold. */
  lemma ConfidenceKeysDisagree(probFail: real, probPass: real)
    requires Distribution(probFail, probPass)
    ensures var r := Decide(probFail, probPass);
      r.probability != r.confidence_score <==> 0.5 < probPass < PassThreshold
  {
  }

  /** Boundary values are accepted and values just past them are not. */
  lemma BoundsAreInclusive(f: StudentFeatures)
    requires WithinBounds(f)
    ensures WithinBounds(f.(attendance_percentage := 0.0)) && WithinBounds(f.(attendance_percentage := 100.0))
    ensures !WithinBounds(f.(attendance_percentage := 100.0001))
    ensures WithinBounds(f.(study_hours := 60.0)) && !WithinBounds(f.(study_hours := 60.5))
    ensures WithinBounds(f.(sleep_hours := 24.0)) && !WithinBounds(f.(sleep_hours := -0.1))
  {
  }
}
