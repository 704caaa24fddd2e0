/** The JSON-over-HTTP contract between the browser client and the prediction
    service: the request payload, the prediction response, and how the HTTP
    client library reports a reply to its caller. */
module Wire {
  import opened Wrappers
  import opened Json

  const StudyHours := "study_hours"
  const AttendancePercentage := "attendance_percentage"
  const PreviousGrade := "previous_grade"
  const ParentalEducation := "parental_education"
  const InternetAccess := "internet_access"
  const ExtracurricularActivity := "extracurricular_activity"
  const SleepHours := "sleep_hours"

  /** The seven keys of the form and of the request body. */
  const FormKeys: set<string> := {StudyHours, AttendancePercentage, PreviousGrade,
    ParentalEducation, InternetAccess, ExtracurricularActivity, SleepHours}

  /** The four keys the request carries as numbers. */
  const NumericKeys: set<string> := {StudyHours, AttendancePercentage, PreviousGrade, SleepHours}

  /** Body of `POST /predict`: four numbers and three free strings. */
  datatype StudentFeatures = StudentFeatures(
    study_hours: real,
    attendance_percentage: real,
    previous_grade: real,
    parental_education: string,
    internet_access: string,
    extracurricular_activity: string,
    sleep_hours: real)

  /** The numeric request field a key names (sleep hours for any other key). */
  function FieldOf(f: StudentFeatures, name: string): real {
    if name == StudyHours then f.study_hours
    else if name == AttendancePercentage then f.attendance_percentage
    else if name == PreviousGrade then f.previous_grade
    else f.sleep_hours
  }

  /** Body of a successful `POST /predict` as the client reads it; every key may
      be missing from the client's point of view (`undefined`). */
  datatype PredictionResponse = PredictionResponse(
    prediction: string,
    probability: Option<real>,
    confidence_score: Option<real>,
    interpretability: Option<string>)

  /** What the service answers: a 200 body, or an error status with a JSON body. */
  datatype Reply<T> = Success(body: T) | HttpFailure(status: nat, data: Json)

  /** Why a request failed, as the HTTP client library raises it: no reply at
      all, or a non-2xx reply whose body is `err.response.data`. */
  datatype RequestError = Unreachable | Rejected(status: nat, data: Json)

  /** The HTTP client resolves with the body of a 2xx reply and rejects with
      every other reply; a reply never turns into `Unreachable`. */
  function Deliver<T>(reply: Reply<T>): (r: Result<T, RequestError>)
    ensures r.Ok? <==> reply.Success?
    ensures reply.Success? ==> r.value == reply.body
    ensures reply.HttpFailure? ==> r.error == Rejected(reply.status, reply.data)
  {
    match reply
    case Success(body) => Ok(body)
    case HttpFailure(status, data) => Err(Rejected(status, data))
  }

  /** The error body FastAPI sends for an HTTPException: `{"detail": text}`. */
  function DetailBody(text: string): Json {
    JObj([("detail", JStr(text))])
  }
}
