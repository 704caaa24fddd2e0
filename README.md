# Student performance predictor: the request/response lifecycle in Dafny

This project models the logic layer of a small student-performance predictor.
A browser form collects seven student attributes and posts them to a FastAPI
service. The service validates the ranges, asks a classifier for the two class
probabilities and answers "Pass" or "Fail" with a probability and a confidence
score. The browser then shows the result. A second page fetches the training
metrics and shows one row per model, the feature-importance bars and the
decision threshold.

Modules, one per source file, plus shared value types:

- `Wrappers`: `Option` and `Result`.
- `Json`: JSON values, JavaScript truthiness and property lookup.
- `Text`: ASCII `toUpperCase` and `parseFloat` on what a number input can hold. It includes a round trip from a typed natural number back to its value.
- `Wire`: the HTTP contract. It covers the request body, the prediction response and how the HTTP client library turns a reply into success or a thrown error.
- `Backend` (`backend/main.py`):
  - the inclusive request bounds and the 422 body;
  - the decision rule at threshold 0.65;
  - the `probability` and `confidence_score` fields;
  - the 503 guards;
  - `/metadata` and `/health`.
- `PredictPage` (`frontend/src/pages/Predict.jsx`):
  - the class `PredictForm`, which holds `formData`, `result`, `loading` and `error`;
  - `handleSubmit`, split at its `await` into `BeginSubmit` and `Resolve`;
  - the pure normalisation, the missing-value check, the error-text choice and the confidence-key choice.
- `ResultCard` (`frontend/src/components/ResultCard.jsx`): the pure derivations of the result card.
- `ModelInsights` (`frontend/src/pages/About.jsx`):
  - the class `InsightsPage`, which holds `metrics` and `loading`;
  - the pure model-row filter, the Active flag, the N/A rule, the feature rows and the threshold fallback.
- `FormCard` (`frontend/src/components/FormCard.jsx`): the typed field update and the two static tables. The router never mounts this component, but its rules are still stated.
- `Lifecycle`: lemmas that connect the components. Examples are what the client's check lets through, what the service answers and what each page then shows.

The classifier is an input to the model: `Backend.Inference` carries either the two class probabilities or an exception message.
Pydantic writes the wording of each 422 message, so it is passed in as the parameter `wording`.
The HTTP transport is `Wire.Deliver`.

The submit button is disabled while `loading` (Predict.jsx:123, FormCard.jsx:77). In the model, `BeginSubmit` therefore requires `SubmitEnabled()`, that is `!loading`. `Resolve` requires `loading`, because only a request that was actually sent can settle. Together these give one request in flight at a time.

## Model

| member | source | states |
|---|---|---|
| `Text.ToUpper` | frontend/src/components/ResultCard.jsx:29 | the label keeps its length; each lower-case ASCII letter becomes its capital; no lower-case letter remains |
| `Text.ParseFloat` | frontend/src/pages/Predict.jsx:26-32 | an input with no digit, the empty string included, parses to NaN (None), never to a number such as 0 |
| `Text.ParseShowNat` | frontend/src/pages/Predict.jsx:26-32 | parsing the typed digits of n gives back exactly n |
| `Text.ParseNegShowNat` | frontend/src/pages/Predict.jsx:26-32 | parsing "-" and the digits of n gives back -n |
| `Text.ParseDecimal` | frontend/src/pages/Predict.jsx:26-32 | for all digit strings w (non-empty) and f, parsing w "." f gives value(w) + value(f) / 10^|f| |
| `Text.ParseTenths` | frontend/src/pages/Predict.jsx:26-32 | for every n and digit d, parsing the digits of n, a point and d gives exactly n + d/10 |
| `Text.ParseShowTenths` | frontend/src/pages/Predict.jsx:77-80 | every non-negative value in steps of 0.1, as typed into the number inputs, parses back to itself |
| `Wire.Deliver` | frontend/src/services/api.js:13-21 | a 2xx reply resolves with its body; every other reply rejects and carries its status and body |
| `Backend.WithinBounds` | backend/main.py:46-52 | a body is within bounds iff every numeric field lies in its inclusive range: study_hours [0,60], attendance_percentage and previous_grade [0,100], sleep_hours [0,24]; the `Bounds` table that `WithinBounds` and `Violations` read is shown to hold exactly these ranges |
| `Backend.Violations` | backend/main.py:45-52 | no violation iff all four numeric fields are in range; each field is out of range iff a violation names it; the first violation names the first out-of-range field in declaration order; the three string fields are never checked |
| `Backend.Validate` | backend/main.py:45-52 | the body is accepted unchanged iff study_hours ∈ [0,60], attendance and previous_grade ∈ [0,100], sleep_hours ∈ [0,24]; otherwise it is rejected with the non-empty list of violations |
| `Backend.BoundsAreInclusive` | backend/main.py:46-52 | the boundary values 0, 100, 60 and 24 are accepted; 100.0001, 60.5 and -0.1 are rejected |
| `Backend.ValidationBody` | backend/main.py:68-69 | the 422 body's `detail` is an array with one `{msg}` item per violation, in order |
| `Backend.Decide` | backend/main.py:77-88 | the prediction is "Pass" iff the pass probability ≥ 0.65, else "Fail"; `probability` is the chosen class's probability; `confidence_score` is the larger of the two and so ≥ `probability` |
| `Backend.ProbabilityBounds` | backend/main.py:78-86 | for a proper distribution, `probability` ∈ [0.35, 1]; for a Pass it is ≥ 0.65 and equals `confidence_score` |
| `Backend.ConfidenceKeysDisagree` | backend/main.py:85-86 | the two confidence keys differ iff 0.5 < pass probability < 0.65 |
| `Backend.PredictEndpoint` | backend/main.py:68-91 | 422 when a bound is violated; 503 "Model unavailable" when no model is loaded; 500 with the exception text when inference raises; otherwise 200 with the decision |
| `Backend.MetadataEndpoint` | backend/main.py:62-66 | 200 with the loaded metrics unchanged; 503 "Metrics not available" when none are loaded (or they are JSON null) |
| `Backend.Health` | backend/main.py:54-60 | status "active"; `model_loaded` iff a model is present; "production" iff RENDER is set and non-empty |
| `PredictPage.EmptyForm` | frontend/src/pages/Predict.jsx:5-13 | exactly the seven field names, each mapped to "" |
| `PredictPage.Normalize` | frontend/src/pages/Predict.jsx:25-33 | the four numbers are the parse of their field; the three choices are passed through as typed |
| `PredictPage.HasMissing` | frontend/src/pages/Predict.jsx:36 | `Object.values(...).some(blank)` holds iff some of the four numbers is NaN or some of the three choices is ""; no range is checked |
| `PredictPage.ToFeatures` | frontend/src/pages/Predict.jsx:25-44 | the body sent carries exactly the parsed numbers and the non-empty choices |
| `PredictPage.FirstDetailMessage` | frontend/src/pages/Predict.jsx:48 | it finds a message only in a rejected reply, and that message is non-empty |
| `PredictPage.FailureText` | frontend/src/pages/Predict.jsx:48 | the error is the first `detail[0].msg` when it is a non-empty string, else the fixed "Could not connect…" text; it is never empty |
| `PredictPage.DisplayedConfidence` | frontend/src/pages/Predict.jsx:141-145 | the percentage is `probability` if truthy, else `confidence_score` if truthy, else 0, times 100 |
| `PredictPage.ShowResult` | frontend/src/pages/Predict.jsx:130-165 | a placeholder iff there is no result; otherwise pass styling iff the prediction is "Pass", the upper-cased prediction and the displayed confidence |
| `PredictPage.PredictForm.constructor` | frontend/src/pages/Predict.jsx:5-17 | all seven fields "", no result, no error, not loading |
| `PredictPage.PredictForm.SubmitEnabled` | frontend/src/pages/Predict.jsx:123 | the submit button is enabled iff no request is loading (`disabled={loading}`) |
| `PredictPage.PredictForm.HandleChange` | frontend/src/pages/Predict.jsx:54-60 | the named field takes the value; every other field is unchanged |
| `PredictPage.PredictForm.BeginSubmit` | frontend/src/pages/Predict.jsx:19-41 | requires the button enabled; rejected iff some number is NaN or some choice is ""; on rejection the error is exactly the fixed text, loading is false and no body is returned; otherwise the body is returned, loading is true and the error is cleared; the result is never touched |
| `PredictPage.PredictForm.Resolve` | frontend/src/pages/Predict.jsx:43-51 | on success the result becomes the response and the error is kept; on failure the error becomes `FailureText` and the previous result is kept; loading is false on both paths |
| `PredictPage.PredictForm.ClearResult` | frontend/src/pages/Predict.jsx:156 | the result becomes null; the form stays valid; the error and loading are untouched (they are outside its frame) |
| `ResultCard.Round` | frontend/src/components/ResultCard.jsx:9 | `Math.round`: the nearest integer, with halves rounded up |
| `ResultCard.Render` | frontend/src/components/ResultCard.jsx:5-59 | nothing without a result; `isPass` iff the prediction is exactly "Pass"; the percentage is `round(confidence_score*100)` and is NaN when that key is missing, since `probability` is never read; the label is the upper-cased prediction; the status is "Optimal" iff `isPass`, else "Needs Support"; the bar width equals the percentage |
| `ResultCard.PercentInRange` | frontend/src/components/ResultCard.jsx:9 | a confidence score in [0,1] shows as a whole percentage in [0,100] |
| `ResultCard.RenderPassExample` | frontend/src/components/ResultCard.jsx:8-9 | `{Pass, confidence_score 0.87}` shows 87, "PASS" and "Optimal" |
| `ResultCard.RenderAlternateKeyExample` | frontend/src/components/ResultCard.jsx:9 | `{Fail, probability 0.42}` shows a NaN percentage, "FAIL" and "Needs Support" |
| `ModelInsights.MetricCell` | frontend/src/pages/About.jsx:70-78 | 'N/A' iff the metric is absent or falsy (0 included); a non-zero number is shown scaled; a null row is malformed |
| `ModelInsights.Entries` | frontend/src/pages/About.jsx:60 | `Object.entries` of an object is its entries in order; a non-object yields none |
| `ModelInsights.RowOf` | frontend/src/pages/About.jsx:60-78 | a row carries the entry's name; it is Active iff `selected_model` is exactly that name; accuracy is shown ×100 and f1_score and cv_mean as they are, each under the N/A rule |
| `ModelInsights.ModelEntries` | frontend/src/pages/About.jsx:60 | an entry is kept iff its key is not `selected_model`, `feature_importance` or `threshold` |
| `ModelInsights.ModelEntriesAppend` | frontend/src/pages/About.jsx:60 | filtering keeps entry order: the model entries of `a + b` are those of `a` followed by those of `b` |
| `ModelInsights.ModelEntriesSingle` | frontend/src/pages/About.jsx:60 | one entry yields itself iff its key is not reserved |
| `ModelInsights.ModelEntriesDistinct` | frontend/src/pages/About.jsx:60 | filtering keeps keys distinct |
| `ModelInsights.ModelRows` | frontend/src/pages/About.jsx:60-80 | one row per model entry, in order; a row is Active iff `selected_model` is exactly its name |
| `ModelInsights.ExactlyOneActive` | frontend/src/pages/About.jsx:61-67 | when `selected_model` names a model entry, exactly one row is Active |
| `ModelInsights.SpaceUnderscores` | frontend/src/pages/About.jsx:96 | every `_` becomes a space and nothing else changes |
| `ModelInsights.FeatureRowOf` | frontend/src/pages/About.jsx:93-100 | a row exists iff the entry's `name` is a string; it shows the rewritten name and the weight times 100 |
| `ModelInsights.FeatureRowsOf` | frontend/src/pages/About.jsx:93 | one row per entry, in received order, with no re-sorting |
| `ModelInsights.FeatureRows` | frontend/src/pages/About.jsx:93 | no rows when the key is absent or null; the array's rows otherwise; a non-array throws |
| `ModelInsights.ThresholdShown` | frontend/src/pages/About.jsx:118 | `metrics.threshold` if truthy, else "0.65" |
| `ModelInsights.ScreenOf` | frontend/src/pages/About.jsx:22-34 | loading view iff loading; error view iff settled with falsy metrics; otherwise the rows, features and threshold |
| `ModelInsights.InsightsPage.constructor` | frontend/src/pages/About.jsx:5-6 | metrics null, loading true, the loading view |
| `ModelInsights.InsightsPage.Settle` | frontend/src/pages/About.jsx:8-20 | loading becomes false on both paths; metrics takes the body on success and stays as it was on failure (from null that is the error view) |
| `FormCard.HandleChange` | frontend/src/components/FormCard.jsx:5-13 | only the named field changes; the four numeric names are stored parsed and every other name raw |
| `FormCard.RenderedOptions` | frontend/src/components/FormCard.jsx:66-69 | the empty placeholder first, then the choices |
| `FormCard.TablesCoverForm` | frontend/src/components/FormCard.jsx:15-26 | the number inputs are exactly the four numeric fields; the selects are exactly the other three |
| `FormCard.ChoiceLists` | frontend/src/components/FormCard.jsx:22-26 | the education levels are High School, Bachelor, Master and PhD; the other two selects offer Yes and No; each list starts with the placeholder |
| `FormCard.InputsAdmitRejectedStudyHours` | frontend/src/components/FormCard.jsx:16 | the table as written admits 80 study hours, which the service rejects |
| `FormCard.CorrectedInputsMatchServer` | frontend/src/components/FormCard.jsx:16-19 | with the study-hours maximum set to 60, a body lies within the inputs' ranges iff the service accepts it |
| `Lifecycle.FilledFormIsSent` | frontend/src/pages/Predict.jsx:25-41 | a form with non-negative numbers in steps of 0.1 (whole or with one decimal) in every numeric field and non-empty choices passes the check and is sent with exactly those values |
| `Lifecycle.EmptyFormRejected` | frontend/src/pages/Predict.jsx:36 | submitting a fresh form is rejected |
| `Lifecycle.ExampleAccepted` | backend/main.py:45-52 | the example form (25, 90, 80, 7, Bachelor, Yes, No) is sent and accepted with identical values |
| `Lifecycle.ExampleTyped` | frontend/src/pages/Predict.jsx:36 | that example, as typed text, passes the final check |
| `Lifecycle.ClientDoesNotCheckRanges` | frontend/src/pages/Predict.jsx:36 | any study-hours value above 60 in steps of 0.1 (60.1, 60.5, 80, ...) passes the client's check and is rejected by the service |
| `Lifecycle.RejectionMessageShown` | frontend/src/pages/Predict.jsx:48 | on a 422 the user sees the message for the first violated field |
| `Lifecycle.ModelUnavailableShownAsUnreachable` | backend/main.py:70-71 | a 503 "Model unavailable" shows as the "Could not connect…" text |
| `Lifecycle.PredictPageShowsProbability` | frontend/src/pages/Predict.jsx:141 | for a service response the page shows `probability` times 100, which lies in [35,100] |
| `Lifecycle.PagesDisagreeOnConfidence` | frontend/src/components/ResultCard.jsx:9 | for a Fail with 0.5 < pass probability < 0.65, the page shows below 50% and the card shows at least 50% |
| `Lifecycle.MetadataPageAfterFetch` | frontend/src/pages/About.jsx:8-34 | after the fetch, the error view shows iff the service had no or falsy metrics; otherwise the rows are those of the served object |
| `Lifecycle.RetryAfterOutage` | frontend/src/pages/Predict.jsx:19-51 | after a connectivity failure the generic error shows; a successful resubmission clears it and shows the new result |

## Left out

- Classifier inference, artifact loading (joblib and JSON files), CORS, uvicorn start-up and the training script are not modelled. They are foreign calls, I/O and configuration. Their outcomes are parameters instead: `Inference`, and the `Option` of loaded metrics.
- `Backend.ConfidenceKeysDisagree` holds of the unrounded probabilities. The service rounds both keys to 4 digits, so for 0.5 < pass probability < 0.50005 both keys become 0.5 and agree (0.49997 and 0.50003 give 0.5 twice).
- `Lifecycle.PagesDisagreeOnConfidence` holds of the unrounded probabilities. With the service's 4-digit rounding and 0.5 < pass probability < 0.50005, the page shows 50.0%, not below 50%.
- `ResultCard.Render`: the product `confidence_score * 100` is computed over exact reals, while JavaScript multiplies IEEE doubles. The two can disagree at half-percent ties. For example, for `confidence_score` 0.565 JavaScript computes 56.49999999999999 and the card shows 56%, but the model shows 57%. The same happens at 0.575, where the card shows 57% and the model 58%.
- Python's `round(…, 4)` on `probability` and `confidence_score` is not modelled. Nor are `toFixed` and the other number formatting. These are display-precision details, so the reals are kept unrounded.
- `Text.ParseFloat` accepts only `[-]digits[.digits]`. Exponent form is not modelled, although a number input can yield it: for "1e3" `parseFloat` gives 1000 and the page sends it, while the model parses None and `BeginSubmit` rejects the form. `Infinity`, leading whitespace and `parseFloat`'s prefix parsing ("12abc" → 12) are not modelled either.
- `Text.ToUpper` maps only ASCII letters; full Unicode case mapping is not modelled.
- The browser's own constraint validation (`required`, `min`/`max`) is not modelled. It runs before `onSubmit` and is outside the component's code.
- Last-submission-wins handling of stale responses is not modelled, because the code does not implement it. Only the disabled button prevents overlapping submits, which `BeginSubmit` requires.
- A single tagged-union submission state is not modelled either. The code keeps three independent slots, and after a failure `result` and `error` can both be set.
- The service's response carries `probability` and `confidence_score`. The result card reads only `confidence_score`: a response carrying only `probability` shows NaN (`ResultCard.RenderAlternateKeyExample`). The model follows the code.
- The client does no range check and no check of the choice values. The service checks only the numeric ranges and accepts any string.
- Pydantic's type coercion and its missing-field errors are not modelled. The body is modelled already typed, which is what the client always sends after its check.
- The 422 message wording is not modelled; it is a parameter. The `loc`, `type` and `input` members of the 422 items are not modelled either.
- `PredictPage.FailureText`: a `detail[0].msg` that is truthy but not a string would be rendered as is; the model shows the generic text instead. FastAPI always sends strings here.
- `ModelInsights.MetricCell`: a truthy metric that is not a JSON number is `Malformed`, and so is a `null` model row (which throws). In JavaScript the accuracy column coerces such values with `* 100`: `"0.9"` shows 90.00%, `true` shows 100.00%, and a non-numeric string shows NaN%. The f1_score and cv_mean columns throw at `.toFixed` on them.
- `ModelInsights.FeatureRowOf`: a weight that is not a JSON number is shown as None. JavaScript would coerce some of them: `"0.5" * 100` is 50.
- `ModelInsights.Entries`: a truthy metrics value that is not an object yields no model rows. JavaScript would list the characters of a string or the indices of an array.
- `ModelInsights.ModelEntries`: `Object.entries` lists integer-like keys first. Metric keys are model names, so this ordering is not modelled.
- Logging (`console.error`, `print`) and all styling, animation and routing are not modelled.

## Findings

| source | as written | input that shows it | evidently intended | confidence | as-written member | corrected member |
|---|---|---|---|---|---|---|
| frontend/src/components/FormCard.jsx:16 | the study-hours input allows up to `max: 100` | study_hours = 80 is within the input's range, but the service's limit is 60 (backend/main.py:46), so it answers 422 | `max: 60`, the service's bound | medium, not executed | `FormCard.InputsAdmitRejectedStudyHours` | `FormCard.CorrectedInputsMatchServer` |
