/** The result card component (frontend/src/components/ResultCard.jsx): display
    values derived from one prediction response. */
module ResultCard {
  import opened Wrappers
  import opened Text
  import opened Wire

  /** `Math.round`: the nearest integer, halves rounded up. */
  function Round(x: real): (n: int)
    ensures n as real - 0.5 <= x < n as real + 0.5
  {
    (x + 0.5).Floor
  }

  /** What the card shows. `confidence` is None where JavaScript computes NaN
      (no `confidence_score` key); the progress bar has the same width. */
  datatype Card = Card(
    isPass: bool,
    confidence: Option<int>,
    heading: string,
    status: string,
    barWidth: Option<int>)

  /** `ResultCard({result})`: nothing without a result; otherwise the pass flag,
      the rounded percentage of `confidence_score` (the `probability` key is
      never read), the upper-case prediction and the status tag. */
  function Render(result: Option<PredictionResponse>): (c: Option<Card>)
    ensures c.None? <==> result.None?
    ensures c.Some? ==> (c.value.isPass <==> result.value.prediction == "Pass")
    ensures c.Some? ==> (c.value.confidence.Some? <==> result.value.confidence_score.Some?)
    ensures c.Some? && c.value.confidence.Some? ==>
              var x := result.value.confidence_score.value * 100.0;
              c.value.confidence.value as real - 0.5 <= x < c.value.confidence.value as real + 0.5
    ensures c.Some? ==> c.value.heading == ToUpper(result.value.prediction)
    ensures c.Some? ==> c.value.status == (if c.value.isPass then "Optimal" else "Needs Support")
    ensures c.Some? ==> c.value.barWidth == c.value.confidence
  {
    match result
    case None => None
    case Some(r) =>
      var isPass := r.prediction == "Pass";
      var confidence :=
        match r.confidence_score
        case Some(x) => Some(Round(x * 100.0))
        case None => None;
      Some(Card(isPass, confidence, ToUpper(r.prediction),
        if isPass then "Optimal" else "Needs Support", confidence))
  }

  /** A confidence score in [0, 1] shows as a whole percentage in [0, 100]. */
  lemma PercentInRange(r: PredictionResponse)
    requires r.confidence_score.Some? && 0.0 <= r.confidence_score.value <= 1.0
    ensures var c := Render(Some(r)).value;
      c.confidence.Some? && 0 <= c.confidence.value <= 100
  {
  }

  /** `{prediction: "Pass", confidence_score: 0.87}` shows 87%, "PASS", "Optimal". */
  lemma RenderPassExample()
    ensures var c := Render(Some(PredictionResponse("Pass", None, Some(0.87), None))).value;
      c.confidence == Some(87) && c.heading == "PASS" && c.status == "Optimal" && c.isPass
  {
  }

  /** `{prediction: "Fail", probability: 0.42}` carries no `confidence_score`, so
      the card's percentage is NaN: the alternate key is not consulted. */
  lemma RenderAlternateKeyExample()
    ensures var c := Render(Some(PredictionResponse("Fail", Some(0.42), None, None))).value;
      c.confidence.None? && c.status == "Needs Support" && c.heading == "FAIL"
  {
  }
}
