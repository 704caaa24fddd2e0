/** The prediction request/response lifecycle across components: what the
    client's final check lets through, what the service answers, and what the
    user then sees on each page. */
module Lifecycle {
  import opened Wrappers
  import opened Json
  import opened Text
  import opened Wire
  import Backend
  import PredictPage
  import ResultCard
  import ModelInsights

  /** A form filled in with the given choices and with numbers typed in tenths
      (`ShowTenths`): `study` is the study hours times 10, and so on. */
  function FilledForm(study: nat, attendance: nat, grade: nat, sleep: nat,
                      education: string, internet: string, extracurricular: string): (form: map<string, string>)
    ensures form.Keys == FormKeys
  {
    map[StudyHours := ShowTenths(study), AttendancePercentage := ShowTenths(attendance),
        PreviousGrade := ShowTenths(grade), SleepHours := ShowTenths(sleep),
        ParentalEducation := education, InternetAccess := internet,
        ExtracurricularActivity := extracurricular]
  }

  /** A filled-in form passes the client's final check and is sent with exactly
      the typed values. */
  lemma FilledFormIsSent(study: nat, attendance: nat, grade: nat, sleep: nat,
                         education: string, internet: string, extracurricular: string)
    requires education != "" && internet != "" && extracurricular != ""
    ensures var s := PredictPage.Normalize(FilledForm(study, attendance, grade, sleep, education, internet, extracurricular));
      && !PredictPage.HasMissing(s)
      && PredictPage.ToFeatures(s) == StudentFeatures(study as real / 10.0, attendance as real / 10.0,
           grade as real / 10.0, education, internet, extracurricular, sleep as real / 10.0)
  {
    var form := FilledForm(study, attendance, grade, sleep, education, internet, extracurricular);
    assert form[StudyHours] == ShowTenths(study) && form[AttendancePercentage] == ShowTenths(attendance);
    assert form[PreviousGrade] == ShowTenths(grade) && form[SleepHours] == ShowTenths(sleep);
    assert form[ParentalEducation] == education && form[InternetAccess] == internet;
    assert form[ExtracurricularActivity] == extracurricular;
    ParseShowTenths(study);
    ParseShowTenths(attendance);
    ParseShowTenths(grade);
    ParseShowTenths(sleep);
  }

  /** A fresh form is rejected by the final check. */
  lemma EmptyFormRejected()
    ensures PredictPage.HasMissing(PredictPage.Normalize(PredictPage.EmptyForm()))
  {
  }

  /** The filled-in example (25 h, 90 %, 80 %, 7 h, Bachelor, Yes, No) is sent
      and accepted by the service with identical values. */
  lemma ExampleAccepted()
    ensures var s := PredictPage.Normalize(FilledForm(250, 900, 800, 70, "Bachelor", "Yes", "No"));
      && !PredictPage.HasMissing(s)
      && Backend.Validate(PredictPage.ToFeatures(s))
         == Ok(StudentFeatures(25.0, 90.0, 80.0, "Bachelor", "Yes", "No", 7.0))
  {
    var s := PredictPage.Normalize(FilledForm(250, 900, 800, 70, "Bachelor", "Yes", "No"));
    var body := StudentFeatures(25.0, 90.0, 80.0, "Bachelor", "Yes", "No", 7.0);
    FilledFormIsSent(250, 900, 800, 70, "Bachelor", "Yes", "No");
    assert PredictPage.ToFeatures(s) == body;
    assert Backend.WithinBounds(body);
  }

  /** The client checks presence only: any study-hours value above 60 typed in
      tenths (60.1, 60.5, 80, ...) passes the final check and is then rejected
      by the service. */
  lemma ClientDoesNotCheckRanges(study: nat)
    requires study > 600
    ensures var s := PredictPage.Normalize(FilledForm(study, 900, 800, 70, "Bachelor", "Yes", "No"));
      && !PredictPage.HasMissing(s)
      && Backend.Validate(PredictPage.ToFeatures(s)).Err?
  {
    FilledFormIsSent(study, 900, 800, 70, "Bachelor", "Yes", "No");
  }

  /** When the service rejects the body, the user sees the validation
      library's message for the first violated field (if it is non-empty). */
  lemma RejectionMessageShown(body: StudentFeatures, modelLoaded: bool, inference: Backend.Inference,
                              wording: Backend.Violation -> string)
    requires !Backend.WithinBounds(body)
    ensures var outcome := Deliver(Backend.PredictEndpoint(body, modelLoaded, inference, wording));
      var first := wording(Backend.Violations(body)[0]);
      && outcome.Err?
      && PredictPage.FailureText(outcome.error) == (if first != "" then first else PredictPage.UnreachableText)
  {
  }

  /** A valid body sent while no model is loaded gets a 503 whose string detail
      has no `msg`, so the user sees the "Could not connect" text although the
      service answered. */
  lemma ModelUnavailableShownAsUnreachable(body: StudentFeatures, inference: Backend.Inference,
                                           wording: Backend.Violation -> string)
    requires Backend.WithinBounds(body)
    ensures var outcome := Deliver(Backend.PredictEndpoint(body, false, inference, wording));
      outcome == Err(Rejected(503, DetailBody(Backend.ModelUnavailable)))
      && PredictPage.FailureText(outcome.error) == PredictPage.UnreachableText
  {
  }

  /** For a proper class distribution, the prediction page shows the reported
      probability (never 0, so the `confidence_score` fallback is not reached),
      between 35 and 100 percent. */
  lemma PredictPageShowsProbability(probFail: real, probPass: real)
    requires Backend.Distribution(probFail, probPass)
    ensures var r := Backend.Decide(probFail, probPass);
      && PredictPage.DisplayedConfidence(r) == r.probability.value * 100.0
      && 35.0 <= PredictPage.DisplayedConfidence(r) <= 100.0
  {
  }

  /** For a "Fail" whose pass probability is between 0.5 and the threshold,
      the prediction page and the result card show different confidences: the
      page the fail probability (below 50 %), the card the rounded maximum
      (at least 50 %). */
  lemma PagesDisagreeOnConfidence(probFail: real, probPass: real)
    requires Backend.Distribution(probFail, probPass)
    requires 0.5 < probPass < Backend.PassThreshold
    ensures var r := Backend.Decide(probFail, probPass);
      var card := ResultCard.Render(Some(r)).value;
      && card.confidence.Some?
      && PredictPage.DisplayedConfidence(r) < 50.0 <= card.confidence.value as real
  {
  }

  /** The metadata page after its fetch settles: the error view exactly when
      the service has no (or falsy) metrics; otherwise the model rows are the
      non-reserved entries of what the service loaded. */
  lemma MetadataPageAfterFetch(loaded: Option<Json>)
    ensures var outcome := Deliver(Backend.MetadataEndpoint(loaded));
      var shown := if outcome.Ok? then outcome.value else JNull;
      var screen := ModelInsights.ScreenOf(false, shown);
      && (screen.LoadFailed? <==> loaded.None? || !Truthy(loaded.value))
      && (loaded.Some? && loaded.value.JObj? ==>
            screen.models == ModelInsights.ModelRows(loaded.value.fields, Lookup(loaded.value.fields, "selected_model")))
  {
  }

  /** The example typed into the form's fields passes the final check. */
  lemma ExampleTyped(form: map<string, string>)
    requires FormKeys <= form.Keys
    requires form[StudyHours] == "25" && form[AttendancePercentage] == "90"
    requires form[PreviousGrade] == "80" && form[SleepHours] == "7"
    requires form[ParentalEducation] == "Bachelor" && form[InternetAccess] == "Yes"
    requires form[ExtracurricularActivity] == "No"
    ensures !PredictPage.HasMissing(PredictPage.Normalize(form))
  {
  }

  /** Types the example into the form, one field at a time. */
  method TypeExample(page: PredictPage.PredictForm)
    requires page.Valid() && !page.loading && page.error == None
    modifies page
    ensures page.Valid() && !page.loading && page.error == None
    ensures page.formData[StudyHours] == "25" && page.formData[AttendancePercentage] == "90"
    ensures page.formData[PreviousGrade] == "80" && page.formData[SleepHours] == "7"
    ensures page.formData[ParentalEducation] == "Bachelor" && page.formData[InternetAccess] == "Yes"
    ensures page.formData[ExtracurricularActivity] == "No"
  {
    page.HandleChange(StudyHours, "25");
    page.HandleChange(AttendancePercentage, "90");
    page.HandleChange(PreviousGrade, "80");
    page.HandleChange(SleepHours, "7");
    page.HandleChange(ParentalEducation, "Bachelor");
    page.HandleChange(InternetAccess, "Yes");
    page.HandleChange(ExtracurricularActivity, "No");
  }

  /** A connectivity failure shows the generic message; resubmitting and
      succeeding clears it and shows the new result. */
  method RetryAfterOutage(response: PredictionResponse)
    returns (errorAfterOutage: Option<string>, finalError: Option<string>, finalResult: Option<PredictionResponse>)
    ensures errorAfterOutage == Some(PredictPage.UnreachableText)
    ensures finalError == None && finalResult == Some(response)
  {
    var page := new PredictPage.PredictForm();
    TypeExample(page);
    ExampleTyped(page.formData);
    var request := page.BeginSubmit();
    page.Resolve(Err(Unreachable));
    errorAfterOutage := page.error;
    request := page.BeginSubmit();
    page.Resolve(Ok(response));
    finalError, finalResult := page.error, page.result;
  }
}
