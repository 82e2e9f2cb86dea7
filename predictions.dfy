/**
 * The forecast models' predictions as the models page and its charts receive them, and the
 * filter all of them apply: a model is shown when it is selected and has predicted something.
 */
module Predictions {
  import opened Util
  import opened Records

  /** The error metrics of one model; each may be missing. */
  datatype Metrics = Metrics(mae: Option<real>, rmse: Option<real>, mape: Option<real>)

  /** One model's out-of-sample predictions. */
  datatype Prediction = Prediction(modelName: string, predicted: seq<real>, metrics: Metrics)

  /** `ALL_MODELS`. */
  const AllModels: seq<string> := ["XGBoost", "Random Forest", "Prophet"]

  /** `s[i]`, `undefined` past the end. */
  function At<T>(s: seq<T>, i: nat): (o: Option<T>)
    ensures o.Some? <==> i < |s|
    ensures i < |s| ==> o.value == s[i]
  {
    if i < |s| then Some(s[i]) else None
  }

  /** `s[s.length - 1]`, `undefined` for an empty list. */
  function Last<T>(s: seq<T>): (o: Option<T>)
    ensures o.Some? <==> |s| > 0
    ensures |s| > 0 ==> o.value == s[|s| - 1]
  {
    if |s| > 0 then Some(s[|s| - 1]) else None
  }

  /** A model is shown when it is selected and has at least one prediction. */
  predicate Shown(p: Prediction, selected: seq<string>) {
    p.modelName in selected && |p.predicted| > 0
  }

  /** The predictions to draw and list, in their original order. */
  function Active(preds: seq<Prediction>, selected: seq<string>): (active: seq<Prediction>)
    ensures forall p :: p in active <==> p in preds && Shown(p, selected)
    ensures Subsequence(active, preds)
  {
    Filter(preds, p => Shown(p, selected))
  }

  /** The model names of a list of predictions. */
  function Names(preds: seq<Prediction>): seq<string> {
    Map(preds, (p: Prediction) => p.modelName)
  }

  /** Dropping predictions drops their names and keeps the rest of the names in order. */
  lemma {:induction false} NamesSubsequence(r: seq<Prediction>, s: seq<Prediction>)
    requires Subsequence(r, s)
    ensures Subsequence(Names(r), Names(s))
    decreases |s|
  {
    if r != [] {
      assert Names(r)[1..] == Names(r[1..]);
      assert Names(s)[1..] == Names(s[1..]);
      if r[0] == s[0] && Subsequence(r[1..], s[1..]) {
        NamesSubsequence(r[1..], s[1..]);
      } else {
        NamesSubsequence(r, s[1..]);
      }
    }
  }

  /**
   * The model values of one chart row: for each active model in order, `point[name] =
   * predicted[i]` when the model has a prediction at `i`.
   */
  function ModelEntries(active: seq<Prediction>, i: nat): Record<real> {
    if active == [] then []
    else
      var r := ModelEntries(active[..|active| - 1], i);
      var p := active[|active| - 1];
      if i < |p.predicted| then Assign(r, p.modelName, p.predicted[i]) else r
  }

  /** A name that no active model carries never appears in a row. */
  lemma {:induction false} InactiveAbsent(active: seq<Prediction>, i: nat, name: string)
    requires forall j :: 0 <= j < |active| ==> active[j].modelName != name
    ensures Lookup(ModelEntries(active, i), name) == None
  {
    if active != [] {
      InactiveAbsent(active[..|active| - 1], i, name);
    }
  }

  /**
   * With distinct model names, each active model has a key in row `i` iff it has a prediction
   * at `i`, and its value is that prediction.
   */
  lemma {:induction false} ModelEntriesLookup(active: seq<Prediction>, i: nat, j: nat)
    requires Distinct(Names(active)) && j < |active|
    ensures Lookup(ModelEntries(active, i), active[j].modelName) == At(active[j].predicted, i)
  {
    var init, p := active[..|active| - 1], active[|active| - 1];
    var r := ModelEntries(init, i);
    if j == |active| - 1 {
      forall k | 0 <= k < |init|
        ensures init[k].modelName != p.modelName
      {
        assert Names(active)[k] != Names(active)[|active| - 1];
      }
      InactiveAbsent(init, i, p.modelName);
    } else {
      assert Names(init) == Names(active)[..|active| - 1];
      assert Names(active)[j] != Names(active)[|active| - 1];
      assert init[j] == active[j];
      ModelEntriesLookup(init, i, j);
    }
  }
}
