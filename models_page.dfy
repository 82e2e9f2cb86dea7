/**
 * The models page: the model checkboxes, the list of models that have predictions, the
 * portfolio label above the charts and the metrics table.
 */
module ModelsPage {
  import opened Util
  import opened Records
  import opened Catalog
  import opened Predictions

  /** The models selected when the page opens: all of them. */
  const InitialSelection: seq<string> := AllModels

  /** `availableModels`: every model while nothing is loaded, else the models that predicted something, in order. */
  function AvailableModels(data: Option<seq<Prediction>>): (names: seq<string>)
    ensures data.None? ==> names == AllModels
    ensures data.Some? ==> |names| <= |data.value|
    ensures data.Some? ==> forall n :: n in names <==> exists p :: p in data.value && p.modelName == n && |p.predicted| > 0
    ensures data.Some? ==> Subsequence(names, Names(data.value))
  {
    match data
    case None => AllModels
    case Some(preds) =>
      var kept := Filter(preds, (p: Prediction) => |p.predicted| > 0);
      var names := Names(kept);
      NamesSubsequence(kept, preds);
      forall n | n in names
        ensures exists p :: p in preds && p.modelName == n && |p.predicted| > 0
      {
        var j :| 0 <= j < |names| && names[j] == n;
        assert kept[j] in kept;
      }
      assert forall p :: p in kept ==> p.modelName in names by {
        forall p | p in kept
          ensures p.modelName in names
        {
          var j :| 0 <= j < |kept| && kept[j] == p;
          assert names[j] == p.modelName;
        }
      }
      names
  }

  /** The display name of each asset, falling back to the symbol itself. */
  function DisplayNames(meta: Metadata, assets: seq<string>): (names: seq<string>)
    ensures |names| == |assets|
    ensures forall i :: 0 <= i < |assets| ==> names[i] == NameOr(meta, assets[i], assets[i])
  {
    Map(assets, a => NameOr(meta, a, a))
  }

  /**
   * `portfolioLabel`: nothing without an asset list; the one asset's name for a single asset;
   * otherwise "Equally Weighted (" and the names joined by ", " and ")".
   */
  function PortfolioLabel(assets: Option<seq<string>>, meta: Metadata): (text: Option<string>)
    ensures assets.None? ==> text.None?
    ensures assets.Some? && |assets.value| == 1 ==> text == Some(NameOr(meta, assets.value[0], assets.value[0]))
    ensures assets.Some? && |assets.value| != 1 ==>
              text == Some("Equally Weighted (" + Join(DisplayNames(meta, assets.value), ", ") + ")")
  {
    match assets
    case None => None
    case Some(a) =>
      var names := DisplayNames(meta, a);
      if |a| == 1 then Some(names[0]) else Some("Equally Weighted (" + Join(names, ", ") + ")")
  }

  /** An empty asset list is still a list: the label reads "Equally Weighted ()". */
  lemma EmptyAssetLabel(meta: Metadata)
    ensures PortfolioLabel(Some([]), meta) == Some("Equally Weighted ()")
  {
    assert DisplayNames(meta, []) == [];
    assert "Equally Weighted (" + "" + ")" == "Equally Weighted ()";
  }

  /** What a metrics cell shows: a dash, or a number (its formatting left out). */
  datatype Cell = Dash | Shown(number: real)

  /** MAE and RMSE cells: a dash only when the metric is missing. */
  function ErrorCell(metric: Option<real>): (c: Cell)
    ensures c.Dash? <==> metric.None?
    ensures metric.Some? ==> c == Shown(metric.value)
  {
    match metric
    case None => Dash
    case Some(v) => Shown(v)
  }

  /** The MAPE cell: shown as a percentage only when the metric is truthy, so a MAPE of 0 shows a dash. */
  function MapeCell(mape: Option<real>): (c: Cell)
    ensures c.Dash? <==> mape.None? || mape.value == 0.0
    ensures mape.Some? && mape.value != 0.0 ==> c == Shown(mape.value * 100.0)
  {
    if mape.Some? && mape.value != 0.0 then Shown(mape.value * 100.0) else Dash
  }

  /** A perfect model shows an MAE of 0 but a dash for its MAPE. */
  lemma ZeroErrorsShownDifferently()
    ensures ErrorCell(Some(0.0)) == Shown(0.0)
    ensures MapeCell(Some(0.0)) == Dash
  {
  }

  /** One row of the metrics table. */
  datatype TableRow = TableRow(model: string, mae: Cell, rmse: Cell, mape: Cell)

  /** The metrics table: a row for each shown model, in order; the same models the charts draw. */
  function MetricsTable(preds: seq<Prediction>, selected: seq<string>): (rows: seq<TableRow>)
    ensures |rows| == |Active(preds, selected)|
    ensures forall i :: 0 <= i < |rows| ==>
              var p := Active(preds, selected)[i];
              rows[i] == TableRow(p.modelName, ErrorCell(p.metrics.mae), ErrorCell(p.metrics.rmse), MapeCell(p.metrics.mape))
  {
    Map(Active(preds, selected), (p: Prediction) =>
      TableRow(p.modelName, ErrorCell(p.metrics.mae), ErrorCell(p.metrics.rmse), MapeCell(p.metrics.mape)))
  }

  /** The table lists exactly the selected models that predicted something. */
  lemma TableModels(preds: seq<Prediction>, selected: seq<string>, name: string)
    ensures (exists r :: r in MetricsTable(preds, selected) && r.model == name) <==>
            (exists p :: p in preds && p.modelName == name && name in selected && |p.predicted| > 0)
  {
    if exists r :: r in MetricsTable(preds, selected) && r.model == name {
      var r :| r in MetricsTable(preds, selected) && r.model == name;
      RowHasModel(preds, selected, r);
    }
    if exists p :: p in preds && p.modelName == name && name in selected && |p.predicted| > 0 {
      var p :| p in preds && p.modelName == name && name in selected && |p.predicted| > 0;
      ModelHasRow(preds, selected, p);
    }
  }

  lemma RowHasModel(preds: seq<Prediction>, selected: seq<string>, r: TableRow)
    requires r in MetricsTable(preds, selected)
    ensures exists p :: p in preds && Predictions.Shown(p, selected) && p.modelName == r.model
  {
    var active := Active(preds, selected);
    var rows := MetricsTable(preds, selected);
    var i :| 0 <= i < |rows| && rows[i] == r;
    assert active[i] in active;
  }

  lemma ModelHasRow(preds: seq<Prediction>, selected: seq<string>, p: Prediction)
    requires p in preds && Predictions.Shown(p, selected)
    ensures exists r :: r in MetricsTable(preds, selected) && r.model == p.modelName
  {
    var active := Active(preds, selected);
    var rows := MetricsTable(preds, selected);
    var i :| 0 <= i < |active| && active[i] == p;
    assert rows[i] in rows;
  }

  /**
   * When the page opens every model is selected, so the table lists exactly the available
   * models among the three known ones.
   */
  lemma InitialTableIsAvailable(preds: seq<Prediction>, name: string)
    ensures (exists r :: r in MetricsTable(preds, InitialSelection) && r.model == name) <==>
            name in AvailableModels(Some(preds)) && name in AllModels
  {
    TableModels(preds, InitialSelection, name);
  }

  /** Toggling a model twice restores the selection, and toggling keeps it duplicate-free. */
  lemma ModelToggle(selected: seq<string>, model: string)
    ensures forall m :: m in ToggleMember(ToggleMember(selected, model), model) <==> m in selected
    ensures Distinct(selected) ==> Distinct(ToggleMember(selected, model))
  {
    ToggleTwice(selected, model);
  }
}
