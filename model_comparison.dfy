/**
 * The model-comparison chart: one row per test date holding the actual value and the
 * prediction of every shown model that reaches that date, plus the colour and dash tables the
 * chart lines use.
 */
module ModelComparison {
  import opened Util
  import opened Records
  import opened Predictions

  /** One chart row: the date, the `Actual` value (if any) and the model values keyed by name. */
  datatype ChartRow = ChartRow(date: string, actual: Option<real>, models: Record<real>)

  const FallbackColor := "#6B7280"
  const FallbackDash := "4 2"

  /** `MODEL_COLORS[name] ?? "#6B7280"`. */
  function ModelColor(name: string): (c: string)
    ensures name == "XGBoost" ==> c == "#F59E0B"
    ensures name == "Random Forest" ==> c == "#10B981"
    ensures name == "Prophet" ==> c == "#8B5CF6"
    ensures name == "Actual" ==> c == "#E5E7EB"
    ensures name !in AllModels + ["Actual"] ==> c == FallbackColor
  {
    match name
    case "XGBoost" => "#F59E0B"
    case "Random Forest" => "#10B981"
    case "Prophet" => "#8B5CF6"
    case "Actual" => "#E5E7EB"
    case _ => FallbackColor
  }

  /** `MODEL_DASH[name] ?? "4 2"`. */
  function ModelDash(name: string): (d: string)
    ensures name == "XGBoost" ==> d == "6 3"
    ensures name == "Random Forest" ==> d == "4 2"
    ensures name == "Prophet" ==> d == "3 3"
    ensures name !in AllModels ==> d == FallbackDash
  {
    match name
    case "XGBoost" => "6 3"
    case "Random Forest" => "4 2"
    case "Prophet" => "3 3"
    case _ => FallbackDash
  }

  /** Each known model is drawn in its own colour, none of them the fallback grey. */
  lemma KnownModelsHaveOwnColours()
    ensures forall m :: m in AllModels ==> ModelColor(m) != FallbackColor
    ensures Distinct(Map(AllModels, ModelColor))
  {
  }

  /**
   * A chart row: the date and actual value first, then `point[name] = predicted[i]` for every
   * active model that has a prediction at `i`, assigned one model at a time.
   */
  method ModelRow(date: string, actual: Option<real>, active: seq<Prediction>, i: nat) returns (row: ChartRow)
    ensures row == ChartRow(date, actual, ModelEntries(active, i))
  {
    var models: Record<real> := [];
    for k := 0 to |active|
      invariant models == ModelEntries(active[..k], i)
    {
      assert active[..k + 1][..k] == active[..k];
      var p := active[k];
      if i < |p.predicted| {
        models := Assign(models, p.modelName, p.predicted[i]);
      }
    }
    assert active[..|active|] == active;
    row := ChartRow(date, actual, models);
  }

  /** `data`: one row per date, in date order, with the shown models' values. */
  method ComparisonData(dates: seq<string>, actualValues: seq<real>, preds: seq<Prediction>, selected: seq<string>)
    returns (rows: seq<ChartRow>)
    ensures |rows| == |dates|
    ensures forall i :: 0 <= i < |dates| ==>
              rows[i] == ChartRow(dates[i], At(actualValues, i), ModelEntries(Active(preds, selected), i))
  {
    rows := RowsFor(dates, actualValues, Active(preds, selected));
  }

  /** The row-building loop over a fixed list of shown models. */
  method RowsFor(dates: seq<string>, actualValues: seq<real>, active: seq<Prediction>) returns (rows: seq<ChartRow>)
    ensures |rows| == |dates|
    ensures forall i :: 0 <= i < |dates| ==> rows[i] == ChartRow(dates[i], At(actualValues, i), ModelEntries(active, i))
  {
    rows := [];
    for i := 0 to |dates|
      invariant |rows| == i
      invariant forall k :: 0 <= k < i ==> rows[k] == ChartRow(dates[k], At(actualValues, k), ModelEntries(active, k))
    {
      var row := ModelRow(dates[i], At(actualValues, i), active, i);
      rows := rows + [row];
      assert rows[i] == row;
    }
  }

  /**
   * In row `i`, a shown model with a distinct name has a value iff it predicted that far, and
   * the value is its prediction; an unselected model has no value at all, and neither has a
   * model with no predictions when every model name is distinct.
   */
  lemma RowValues(preds: seq<Prediction>, selected: seq<string>, i: nat, p: Prediction)
    requires Distinct(Names(Active(preds, selected))) && p in preds
    ensures Shown(p, selected) ==> Lookup(ModelEntries(Active(preds, selected), i), p.modelName) == At(p.predicted, i)
    ensures p.modelName !in selected ==> Lookup(ModelEntries(Active(preds, selected), i), p.modelName) == None
    ensures Distinct(Names(preds)) && |p.predicted| == 0 ==> Lookup(ModelEntries(Active(preds, selected), i), p.modelName) == None
  {
    var active := Active(preds, selected);
    if Shown(p, selected) {
      var j :| 0 <= j < |active| && active[j] == p;
      ModelEntriesLookup(active, i, j);
    }
    if p.modelName !in selected {
      forall j | 0 <= j < |active|
        ensures active[j].modelName != p.modelName
      {
        assert active[j] in active;
      }
      InactiveAbsent(active, i, p.modelName);
    }
    if Distinct(Names(preds)) && |p.predicted| == 0 {
      forall j | 0 <= j < |active|
        ensures active[j].modelName != p.modelName
      {
        assert active[j] in active;
        if active[j].modelName == p.modelName {
          SameNameSamePrediction(preds, active[j], p);
        }
      }
      InactiveAbsent(active, i, p.modelName);
    }
  }

  /** With distinct names, a name identifies its prediction. */
  lemma SameNameSamePrediction(preds: seq<Prediction>, a: Prediction, b: Prediction)
    requires Distinct(Names(preds)) && a in preds && b in preds && a.modelName == b.modelName
    ensures a == b
  {
    var k :| 0 <= k < |preds| && preds[k] == a;
    var l :| 0 <= l < |preds| && preds[l] == b;
    assert Names(preds)[k] == Names(preds)[l];
  }
}
