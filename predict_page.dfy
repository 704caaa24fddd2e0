/** The prediction form page (frontend/src/pages/Predict.jsx): seven string
    fields, the submit cycle around one prediction request, and the result panel. */
module PredictPage {
  import opened Wrappers
  import opened Json
  import opened Text
  import opened Wire

  const MissingFieldsText := "Please fill in all fields with valid numbers."
  const UnreachableText := "Could not connect to the server. Please check if the backend is running."

  /** `submissionData`: the four numbers after `parseFloat` (None is NaN) and the
      three choices as typed. */
  datatype Submission = Submission(
    study_hours: Option<real>,
    attendance_percentage: Option<real>,
    previous_grade: Option<real>,
    parental_education: string,
    internet_access: string,
    extracurricular_activity: string,
    sleep_hours: Option<real>)

  /** The form as first mounted: every field the empty string. */
  function EmptyForm(): (f: map<string, string>)
    ensures f.Keys == FormKeys
    ensures forall k :: k in f ==> f[k] == ""
  {
    map k | k in FormKeys :: ""
  }

  /** Converts the form strings to the request's types. */
  function Normalize(form: map<string, string>): (s: Submission)
    requires FormKeys <= form.Keys
    ensures s.study_hours == ParseFloat(form[StudyHours])
    ensures s.attendance_percentage == ParseFloat(form[AttendancePercentage])
    ensures s.previous_grade == ParseFloat(form[PreviousGrade])
    ensures s.sleep_hours == ParseFloat(form[SleepHours])
    ensures s.parental_education == form[ParentalEducation]
    ensures s.internet_access == form[InternetAccess]
    ensures s.extracurricular_activity == form[ExtracurricularActivity]
  {
    Submission(
      ParseFloat(form[StudyHours]),
      ParseFloat(form[AttendancePercentage]),
      ParseFloat(form[PreviousGrade]),
      form[ParentalEducation],
      form[InternetAccess],
      form[ExtracurricularActivity],
      ParseFloat(form[SleepHours]))
  }

  /** One entry of `Object.values(submissionData)`. */
  datatype SubmittedValue = Number(x: Option<real>) | Choice(s: string)

  /** `val === '' || (typeof val === 'number' && isNaN(val))`. */
  predicate Blank(v: SubmittedValue) {
    match v
    case Number(x) => x.None?
    case Choice(s) => s == ""
  }

  /** `Object.values(submissionData)`, in the object's key order. */
  function Values(s: Submission): seq<SubmittedValue> {
    [Number(s.study_hours), Number(s.attendance_percentage), Number(s.previous_grade),
     Choice(s.parental_education), Choice(s.internet_access), Choice(s.extracurricular_activity),
     Number(s.sleep_hours)]
  }

  /** The final check, `Object.values(...).some(blank)`: it fails exactly when
      some number is NaN or some choice is the empty string. No range is checked. */
  predicate HasMissing(s: Submission)
    ensures HasMissing(s) <==>
              || s.study_hours.None? || s.attendance_percentage.None?
              || s.previous_grade.None? || s.sleep_hours.None?
              || s.parental_education == "" || s.internet_access == ""
              || s.extracurricular_activity == ""
  {
    var values := Values(s);
    assert values[0] == Number(s.study_hours) && values[1] == Number(s.attendance_percentage);
    assert values[2] == Number(s.previous_grade) && values[6] == Number(s.sleep_hours);
    assert values[3] == Choice(s.parental_education) && values[4] == Choice(s.internet_access);
    assert values[5] == Choice(s.extracurricular_activity);
    exists i :: 0 <= i < |values| && Blank(values[i])
  }

  /** The request body sent once the check passes. */
  function ToFeatures(s: Submission): (f: StudentFeatures)
    requires !HasMissing(s)
    ensures Some(f.study_hours) == s.study_hours && Some(f.sleep_hours) == s.sleep_hours
    ensures Some(f.attendance_percentage) == s.attendance_percentage
    ensures Some(f.previous_grade) == s.previous_grade
    ensures f.parental_education == s.parental_education && f.parental_education != ""
    ensures f.internet_access == s.internet_access && f.internet_access != ""
    ensures f.extracurricular_activity == s.extracurricular_activity && f.extracurricular_activity != ""
  {
    StudentFeatures(s.study_hours.value, s.attendance_percentage.value, s.previous_grade.value,
      s.parental_education, s.internet_access, s.extracurricular_activity, s.sleep_hours.value)
  }

  /** `err.response?.data?.detail?.[0]?.msg`, when it is a non-empty string.
      A string `detail` (an HTTPException) has no `msg` at index 0. */
  function FirstDetailMessage(err: RequestError): (m: Option<string>)
    ensures m.Some? ==> m.value != "" && err.Rejected?
  {
    match err
    case Unreachable => None
    case Rejected(_, data) =>
      match Member(data, "detail")
      case Some(JArr(items)) =>
        if |items| > 0 then
          match Member(items[0], "msg")
          case Some(JStr(text)) => if text != "" then Some(text) else None
          case _ => None
        else None
      case _ => None
  }

  /** The error shown after a failed request. */
  function FailureText(err: RequestError): (t: string)
    ensures t != ""
    ensures FirstDetailMessage(err).Some? ==> t == FirstDetailMessage(err).value
    ensures FirstDetailMessage(err).None? ==> t == UnreachableText
  {
    match FirstDetailMessage(err)
    case Some(text) => text
    case None => UnreachableText
  }

  /** JavaScript truthiness of an optional number. */
  predicate Present(x: Option<real>) {
    x.Some? && x.value != 0.0
  }

  /** `(result.probability || result.confidence_score || 0) * 100`: the first
      truthy key wins; the same value sizes the confidence bar. */
  function DisplayedConfidence(r: PredictionResponse): (pct: real)
    ensures Present(r.probability) ==> pct == r.probability.value * 100.0
    ensures !Present(r.probability) && Present(r.confidence_score) ==> pct == r.confidence_score.value * 100.0
    ensures !Present(r.probability) && !Present(r.confidence_score) ==> pct == 0.0
  {
    if Present(r.probability) then r.probability.value * 100.0
    else if Present(r.confidence_score) then r.confidence_score.value * 100.0
    else 0.0
  }

  /** The result panel: pass styling, the upper-case prediction and the
      confidence percentage; with no result only the placeholder shows. */
  datatype Panel = Placeholder | ResultPanel(passStyle: bool, heading: string, confidence: real)

  function ShowResult(result: Option<PredictionResponse>): (p: Panel)
    ensures p.Placeholder? <==> result.None?
    ensures p.ResultPanel? ==> (p.passStyle <==> result.value.prediction == "Pass")
    ensures p.ResultPanel? ==> p.heading == ToUpper(result.value.prediction)
    ensures p.ResultPanel? ==> p.confidence == DisplayedConfidence(result.value)
  {
    match result
    case None => Placeholder
    case Some(r) => ResultPanel(r.prediction == "Pass", ToUpper(r.prediction), DisplayedConfidence(r))
  }

  /** The form component's state: `formData`, `result`, `loading`, `error`. */
  class PredictForm {
    var formData: map<string, string>
    var result: Option<PredictionResponse>
    var loading: bool
    var error: Option<string>

    /** Every field the form renders is present in `formData`. */
    ghost predicate Valid()
      reads this
    {
      FormKeys <= formData.Keys
    }

    /** The submit button is enabled exactly when no request is in flight. */
    predicate SubmitEnabled()
      reads this
      ensures SubmitEnabled() <==> !loading
    {
      !loading
    }

    constructor ()
      ensures Valid()
      ensures formData == EmptyForm()
      ensures result == None && error == None && !loading
    {
      formData := EmptyForm();
      result := None;
      loading := false;
      error := None;
    }

    /** `handleChange`: the named field takes the new value, the others stay. */
    method HandleChange(name: string, value: string)
      requires Valid()
      modifies this`formData
      ensures Valid()
      ensures formData == old(formData)[name := value]
      ensures forall k :: k in old(formData) && k != name ==> formData[k] == old(formData)[k]
    {
      formData := formData[name := value];
    }

    /** `handleSubmit` up to the `await`. Returns the body to post, or None when
        the final check rejects the form, in which case no request is made. */
    method BeginSubmit() returns (request: Option<StudentFeatures>)
      requires Valid() && SubmitEnabled()
      modifies this`loading, this`error
      ensures Valid()
      ensures request.None? <==> HasMissing(Normalize(formData))
      ensures request.None? ==> error == Some(MissingFieldsText) && !loading
      ensures request.Some? ==> request.value == ToFeatures(Normalize(formData))
      ensures request.Some? ==> error == None && loading
      ensures result == old(result) && formData == old(formData)
    {
      loading := true;
      error := None;
      var submission := Normalize(formData);
      if HasMissing(submission) {
        error := Some(MissingFieldsText);
        loading := false;
        return None;
      }
      request := Some(ToFeatures(submission));
    }

    /** `handleSubmit` after the `await`: the response replaces the result, or
        the failure sets the error and keeps the previous result; `finally`
        clears `loading` on both paths. */
    method Resolve(outcome: Result<PredictionResponse, RequestError>)
      requires Valid() && loading
      modifies this`result, this`error, this`loading
      ensures Valid() && !loading
      ensures outcome.Ok? ==> result == Some(outcome.value) && error == old(error)
      ensures outcome.Err? ==> result == old(result) && error == Some(FailureText(outcome.error))
      ensures formData == old(formData)
    {
      match outcome {
        case Ok(data) =>
          result := Some(data);
        case Err(err) =>
          error := Some(FailureText(err));
      }
      loading := false;
    }

    /** The "Clear Result" button: drops the result, keeps the error. */
    method ClearResult()
      requires Valid()
      modifies this`result
      ensures Valid()
      ensures result == None
    {
      result := None;
    }
  }
}
