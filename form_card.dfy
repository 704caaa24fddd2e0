/** The alternate form component (frontend/src/components/FormCard.jsx): a typed
    field update and the static tables of numeric inputs and choice lists. */
module FormCard {
  import opened Wrappers
  import opened Text
  import opened Wire
  import Backend

  /** A form value: a raw string, or the result of `parseFloat` (None is NaN). */
  datatype FieldValue = Raw(s: string) | Parsed(x: Option<real>)

  /** `handleChange` through the functional updater: the four numeric names are
      stored parsed, every other name as the raw string; other fields stay. */
  function HandleChange(prev: map<string, FieldValue>, name: string, value: string): (next: map<string, FieldValue>)
    ensures next.Keys == prev.Keys + {name}
    ensures name in NumericKeys ==> next[name] == Parsed(ParseFloat(value))
    ensures name !in NumericKeys ==> next[name] == Raw(value)
    ensures forall k :: k in prev && k != name ==> next[k] == prev[k]
  {
    prev[name := if name in NumericKeys then Parsed(ParseFloat(value)) else Raw(value)]
  }

  /** A number input with its `min` and `max` attributes. */
  datatype NumericInput = NumericInput(name: string, min: real, max: real)

  /** A select with its options, shown after an empty placeholder option. */
  datatype SelectInput = SelectInput(name: string, options: seq<string>)

  /** The `inputs` table as written. */
  const Inputs: seq<NumericInput> := [
    NumericInput(StudyHours, 0.0, 100.0),
    NumericInput(AttendancePercentage, 0.0, 100.0),
    NumericInput(PreviousGrade, 0.0, 100.0),
    NumericInput(SleepHours, 0.0, 24.0)]

  /** The `inputs` table with the study-hours maximum the service enforces. */
  const CorrectedInputs: seq<NumericInput> := Inputs[0 := NumericInput(StudyHours, 0.0, 60.0)]

  /** The `selects` table. */
  const Selects: seq<SelectInput> := [
    SelectInput(ParentalEducation, ["High School", "Bachelor", "Master", "PhD"]),
    SelectInput(InternetAccess, ["Yes", "No"]),
    SelectInput(ExtracurricularActivity, ["Yes", "No"])]

  /** The options a select renders: the empty placeholder, then its choices. */
  function RenderedOptions(select: SelectInput): (opts: seq<string>)
    ensures |opts| == |select.options| + 1
    ensures opts[0] == "" && opts[1..] == select.options
  {
    [""] + select.options
  }

  /** The two tables together name each of the seven form fields exactly once,
      the number inputs being exactly the numeric request fields. */
  lemma TablesCoverForm()
    ensures forall i :: 0 <= i < |Inputs| ==> Inputs[i].name in NumericKeys
    ensures forall k :: k in NumericKeys ==> exists i :: 0 <= i < |Inputs| && Inputs[i].name == k
    ensures forall i :: 0 <= i < |Selects| ==> Selects[i].name in FormKeys - NumericKeys
    ensures forall k :: k in FormKeys - NumericKeys ==> exists i :: 0 <= i < |Selects| && Selects[i].name == k
    ensures |Inputs| + |Selects| == |FormKeys|
  {
    assert Inputs[0].name == StudyHours && Inputs[1].name == AttendancePercentage;
    assert Inputs[2].name == PreviousGrade && Inputs[3].name == SleepHours;
    assert Selects[0].name == ParentalEducation && Selects[1].name == InternetAccess;
    assert Selects[2].name == ExtracurricularActivity;
  }

  /** The choice lists: four education levels, and Yes/No for the two others;
      each select also renders the empty placeholder first. */
  lemma ChoiceLists()
    ensures RenderedOptions(Selects[0]) == ["", "High School", "Bachelor", "Master", "PhD"]
    ensures RenderedOptions(Selects[1]) == ["", "Yes", "No"]
    ensures RenderedOptions(Selects[2]) == ["", "Yes", "No"]
  {
  }

  /** Every numeric field lies within the `min`/`max` of its input. */
  predicate WithinInputs(inputs: seq<NumericInput>, f: StudentFeatures) {
    forall i :: 0 <= i < |inputs| ==> inputs[i].min <= FieldOf(f, inputs[i].name) <= inputs[i].max
  }

  /** As written, the study-hours input admits 80 hours, which the service
      rejects: its limit is 60. */
  lemma InputsAdmitRejectedStudyHours()
    ensures var f := StudentFeatures(80.0, 90.0, 80.0, "Bachelor", "Yes", "No", 7.0);
      WithinInputs(Inputs, f) && Backend.Validate(f).Err?
  {
  }

  /** With the corrected table, the inputs' ranges are exactly the ranges the
      service accepts. */
  lemma CorrectedInputsMatchServer(f: StudentFeatures)
    ensures WithinInputs(CorrectedInputs, f) <==> Backend.WithinBounds(f)
  {
    assert CorrectedInputs[0].name == StudyHours && CorrectedInputs[1].name == AttendancePercentage;
    assert CorrectedInputs[2].name == PreviousGrade && CorrectedInputs[3].name == SleepHours;
    if WithinInputs(CorrectedInputs, f) {
      assert forall i :: 0 <= i < 4 ==>
        CorrectedInputs[i].min <= FieldOf(f, CorrectedInputs[i].name) <= CorrectedInputs[i].max;
    }
  }
}
