/** The model-metadata page (frontend/src/pages/About.jsx, mounted as
    ModelInsights): one fetch of `/metadata`, then a table of model rows, the
    feature-importance bars and the decision threshold. */
module ModelInsights {
  import opened Wrappers
  import opened Json
  import opened Wire

  /** Top-level metadata keys that are not models. */
  predicate Reserved(key: string) {
    key == "selected_model" || key == "feature_importance" || key == "threshold"
  }

  /** One metric cell: 'N/A', a number (scaled for accuracy), or a value that
      JavaScript renders as NaN or throws on (null rows, non-numeric metrics). */
  datatype Cell = NA | Value(x: real) | Malformed

  datatype ModelRow = ModelRow(name: string, active: bool, accuracy: Cell, f1Score: Cell, cvMean: Cell)

  /** One feature bar: the name with spaces for underscores, and the weight in
      percent (None where `value * 100` is not a number). */
  datatype FeatureRow = FeatureRow(heading: string, weight: Option<real>)

  /** `m.key ? show(m.key) : 'N/A'`: absent and falsy values (0 included) are
      'N/A'; a number is shown multiplied by `scale`. */
  function MetricCell(m: Json, key: string, scale: real): (c: Cell)
    ensures m == JNull ==> c == Malformed
    ensures m != JNull ==>
              (c == NA <==> Member(m, key).None? || !Truthy(Member(m, key).value))
    ensures c.Value? <==> Member(m, key).Some? && Member(m, key).value.JNum? && Member(m, key).value.n != 0.0
    ensures c.Value? ==> c.x == Member(m, key).value.n * scale
  {
    if m == JNull then Malformed
    else
      match Member(m, key)
      case None => NA
      case Some(v) =>
        if !Truthy(v) then NA
        else if v.JNum? then Value(v.n * scale)
        else Malformed
  }

  /** The row for one metadata entry; it is Active when `selected_model` is
      exactly the entry's name. Accuracy is shown as a percentage. */
  function RowOf(entry: (string, Json), selected: Option<Json>): (row: ModelRow)
    ensures row.name == entry.0
    ensures row.active <==> selected == Some(JStr(entry.0))
    ensures row.accuracy == MetricCell(entry.1, "accuracy", 100.0)
    ensures row.f1Score == MetricCell(entry.1, "f1_score", 1.0)
    ensures row.cvMean == MetricCell(entry.1, "cv_mean", 1.0)
  {
    ModelRow(entry.0, selected == Some(JStr(entry.0)),
      MetricCell(entry.1, "accuracy", 100.0),
      MetricCell(entry.1, "f1_score", 1.0),
      MetricCell(entry.1, "cv_mean", 1.0))
  }

  /** `Object.entries(metrics).filter(...)`: the entries whose key is not
      reserved, in entry order. */
  function ModelEntries(entries: seq<(string, Json)>): (models: seq<(string, Json)>)
    ensures |models| <= |entries|
    ensures forall e :: e in models <==> e in entries && !Reserved(e.0)
  {
    if entries == [] then []
    else if Reserved(entries[0].0) then ModelEntries(entries[1..])
    else [entries[0]] + ModelEntries(entries[1..])
  }

  /** `.map(row)` over the model entries. */
  function ModelRows(entries: seq<(string, Json)>, selected: Option<Json>): (rows: seq<ModelRow>)
    ensures |rows| == |ModelEntries(entries)|
    ensures forall j :: 0 <= j < |rows| ==> rows[j] == RowOf(ModelEntries(entries)[j], selected)
    ensures forall j :: 0 <= j < |rows| ==>
              !Reserved(rows[j].name) && (rows[j].active <==> selected == Some(JStr(rows[j].name)))
  {
    var models := ModelEntries(entries);
    seq(|models|, j requires 0 <= j < |models| => RowOf(models[j], selected))
  }

  /** Filtering keeps the entry order: the model entries of a concatenation
      are those of each part, one after the other. */
  lemma {:induction false} ModelEntriesAppend(a: seq<(string, Json)>, b: seq<(string, Json)>)
    ensures ModelEntries(a + b) == ModelEntries(a) + ModelEntries(b)
  {
    if a != [] {
      assert (a + b)[0] == a[0] && (a + b)[1..] == a[1..] + b;
      ModelEntriesAppend(a[1..], b);
    } else {
      assert a + b == b;
    }
  }

  /** A single entry gives a row exactly when its key is not reserved. */
  lemma ModelEntriesSingle(e: (string, Json))
    ensures ModelEntries([e]) == if Reserved(e.0) then [] else [e]
  {
  }

  /** Filtering keeps keys distinct. */
  lemma {:induction false} ModelEntriesDistinct(entries: seq<(string, Json)>)
    requires DistinctKeys(entries)
    ensures DistinctKeys(ModelEntries(entries))
  {
    if entries != [] {
      var rest := entries[1..];
      assert DistinctKeys(rest) by {
        forall i, j | 0 <= i < j < |rest| ensures rest[i].0 != rest[j].0 {
          assert rest[i] == entries[i + 1] && rest[j] == entries[j + 1];
        }
      }
      ModelEntriesDistinct(rest);
      var tail := ModelEntries(rest);
      forall e | e in tail ensures e.0 != entries[0].0 {
        var i :| 0 <= i < |rest| && rest[i] == e;
        assert rest[i] == entries[i + 1];
      }
    }
  }

  /** When `selected_model` names a model entry of a well-formed metadata
      object, exactly one row is flagged Active. */
  lemma ExactlyOneActive(entries: seq<(string, Json)>, name: string)
    requires DistinctKeys(entries)
    requires Lookup(entries, "selected_model") == Some(JStr(name))
    requires !Reserved(name) && exists i :: 0 <= i < |entries| && entries[i].0 == name
    ensures var rows := ModelRows(entries, Lookup(entries, "selected_model"));
      && (exists j :: 0 <= j < |rows| && rows[j].active)
      && (forall j, k :: 0 <= j < |rows| && 0 <= k < |rows| && rows[j].active && rows[k].active ==> j == k)
  {
    var selected := Lookup(entries, "selected_model");
    var rows := ModelRows(entries, selected);
    var models := ModelEntries(entries);
    var i :| 0 <= i < |entries| && entries[i].0 == name;
    assert entries[i] in models;
    var j :| 0 <= j < |models| && models[j] == entries[i];
    assert rows[j].active;
    ModelEntriesDistinct(entries);
  }

  /** `name.replace(/_/g, ' ')`. */
  function SpaceUnderscores(s: string): (r: string)
    ensures |r| == |s|
    ensures forall i :: 0 <= i < |s| ==> r[i] == (if s[i] == '_' then ' ' else s[i])
    ensures forall i :: 0 <= i < |r| ==> r[i] != '_'
  {
    if s == [] then [] else [if s[0] == '_' then ' ' else s[0]] + SpaceUnderscores(s[1..])
  }

  /** One feature-importance entry; None where rendering it throws (the entry
      is not an object or its `name` is not a string). */
  function FeatureRowOf(item: Json): (r: Option<FeatureRow>)
    ensures r.Some? <==> Member(item, "name").Some? && Member(item, "name").value.JStr?
    ensures r.Some? ==> r.value.heading == SpaceUnderscores(Member(item, "name").value.s)
    ensures r.Some? ==> (r.value.weight.Some? <==> Member(item, "value").Some? && Member(item, "value").value.JNum?)
    ensures r.Some? && r.value.weight.Some? ==> r.value.weight.value == Member(item, "value").value.n * 100.0
  {
    match Member(item, "name")
    case Some(JStr(name)) =>
      var weight :=
        match Member(item, "value")
        case Some(JNum(x)) => Some(x * 100.0)
        case _ => None;
      Some(FeatureRow(SpaceUnderscores(name), weight))
    case _ => None
  }

  /** `items.map(row)`: one row per entry, in received order. */
  function FeatureRowsOf(items: seq<Json>): (r: Option<seq<FeatureRow>>)
    ensures r.Some? <==> forall i :: 0 <= i < |items| ==> FeatureRowOf(items[i]).Some?
    ensures r.Some? ==> |r.value| == |items|
    ensures r.Some? ==> forall i :: 0 <= i < |items| ==> r.value[i] == FeatureRowOf(items[i]).value
  {
    if items == [] then Some([])
    else
      match (FeatureRowOf(items[0]), FeatureRowsOf(items[1..]))
      case (Some(head), Some(tail)) => Some([head] + tail)
      case _ => None
  }

  /** `metrics.feature_importance?.map(...)`: nothing when the key is absent or
      null, one row per array entry otherwise; None where rendering throws. */
  function FeatureRows(importance: Option<Json>): (r: Option<seq<FeatureRow>>)
    ensures importance.None? || importance == Some(JNull) ==> r == Some([])
    ensures importance.Some? && importance.value.JArr? ==> r == FeatureRowsOf(importance.value.items)
    ensures importance.Some? && !importance.value.JArr? && importance.value != JNull ==> r.None?
  {
    match importance
    case None => Some([])
    case Some(JNull) => Some([])
    case Some(JArr(items)) => FeatureRowsOf(items)
    case Some(_) => None
  }

  /** `metrics.threshold || '0.65'`. */
  function ThresholdShown(threshold: Option<Json>): (t: Json)
    ensures threshold.Some? && Truthy(threshold.value) ==> t == threshold.value
    ensures threshold.None? || !Truthy(threshold.value) ==> t == JStr("0.65")
    ensures Truthy(t)
  {
    if threshold.Some? && Truthy(threshold.value) then threshold.value else JStr("0.65")
  }

  /** What the page shows. */
  datatype Screen =
    | Loading
    | LoadFailed
    | Insights(models: seq<ModelRow>, features: Option<seq<FeatureRow>>, threshold: Json)

  /** The entries `Object.entries` yields: an object's own entries (a truthy
      non-object yields none here). */
  function Entries(metrics: Json): (entries: seq<(string, Json)>)
    ensures metrics.JObj? ==> entries == metrics.fields
    ensures !metrics.JObj? ==> entries == []
  {
    if metrics.JObj? then metrics.fields else []
  }

  /** The page for a given `loading` flag and `metrics` value. */
  function ScreenOf(loading: bool, metrics: Json): (s: Screen)
    ensures s.Loading? <==> loading
    ensures s.LoadFailed? <==> !loading && !Truthy(metrics)
    ensures s.Insights? ==>
              && s.models == ModelRows(Entries(metrics), Member(metrics, "selected_model"))
              && s.features == FeatureRows(Member(metrics, "feature_importance"))
              && s.threshold == ThresholdShown(Member(metrics, "threshold"))
  {
    if loading then Loading
    else if !Truthy(metrics) then LoadFailed
    else
      var entries := Entries(metrics);
      Insights(
        ModelRows(entries, Member(metrics, "selected_model")),
        FeatureRows(Member(metrics, "feature_importance")),
        ThresholdShown(Member(metrics, "threshold")))
  }

  /** The page component's state: `metrics` (initially null) and `loading`
      (initially true). */
  class InsightsPage {
    var metrics: Json
    var loading: bool

    constructor ()
      ensures metrics == JNull && loading
      ensures View() == Loading
    {
      metrics := JNull;
      loading := true;
    }

    function View(): Screen
      reads this
    {
      ScreenOf(loading, metrics)
    }

    /** The fetch settles: on success `metrics` takes the response body, on
        failure it stays as it was; `finally` clears `loading` either way. */
    method Settle(outcome: Result<Json, RequestError>)
      requires loading
      modifies this
      ensures !loading
      ensures outcome.Ok? ==> metrics == outcome.value
      ensures outcome.Err? ==> metrics == old(metrics)
      ensures old(metrics) == JNull && outcome.Err? ==> View() == LoadFailed
    {
      if outcome.Ok? {
        metrics := outcome.value;
      }
      loading := false;
    }
  }
}
