/**
 * The staged weights of the dashboard's configuration panel: what the sliders are given when
 * no weights are staged, and the equal split installed whenever the asset selection changes.
 */
module DashboardWeights {
  import opened Util
  import opened Records
  import WeightSliders

  /** `Object.fromEntries(assets.map((a) => [a, 1 / assets.length]))`. */
  function EqualSplit(assets: seq<string>): (r: Record<real>)
    ensures DistinctKeys(r)
    ensures forall k :: Lookup(r, k) == if k in assets then Some(1.0 / |assets| as real) else None
    ensures Distinct(assets) ==> Keys(r) == assets
  {
    // With no assets the division is never observed: the record is empty.
    if assets == [] then []
    else
      FromKeysLookup(assets, 1.0 / |assets| as real);
      FromKeys(assets, 1.0 / |assets| as real)
  }

  /** An equal split over a duplicate-free, non-empty selection sums to exactly 1. */
  lemma EqualSplitSumsToOne(assets: seq<string>)
    requires Distinct(assets) && |assets| > 0
    ensures ValueSum(EqualSplit(assets)) == 1.0
  {
    var r := EqualSplit(assets);
    ValueSumByKeys(r);
    SumLookupsConstant(assets, r, 1.0 / |assets| as real);
    TimesQuotient(|assets|, 1.0);
  }

  /** `stagedWeightsResolved`: the staged weights if any, otherwise the equal split over the staged assets. */
  function StagedWeightsResolved(staged: Option<Record<real>>, assets: seq<string>): (r: Record<real>)
    ensures staged.Some? ==> r == staged.value
    ensures staged.None? ==> forall k :: Lookup(r, k) == if k in assets then Some(1.0 / |assets| as real) else None
  {
    match staged
    case Some(w) => w
    case None => EqualSplit(assets)
  }

  /** The staged selection and weights after `handleAssetsChange`. */
  datatype Staged = Staged(assets: seq<string>, weights: Option<Record<real>>)

  /** `handleAssetsChange`: adopt the new selection and reset the weights to an equal split over it. */
  function HandleAssetsChange(assets: seq<string>): (s: Staged)
    ensures s.assets == assets
    ensures s.weights.Some?
    ensures forall k :: Lookup(s.weights.value, k) == if k in assets then Some(1.0 / |assets| as real) else None
  {
    Staged(assets, Some(EqualSplit(assets)))
  }

  /**
   * Whatever was staged before, after a selection change every selected slider shows `1 / n`,
   * the staged weights sum to 1, and they satisfy the conditions under which a later slider
   * edit keeps the sum at 1.
   */
  lemma AssetsChangeResetsToSimplex(assets: seq<string>, edited: string)
    requires Distinct(assets) && |assets| >= 2 && edited in assets
    ensures var s := HandleAssetsChange(assets);
            && ValueSum(s.weights.value) == 1.0
            && (forall a :: a in assets ==> WeightSliders.DisplayWeight(s.weights.value, assets, a) == 1.0 / |assets| as real)
            && WeightSliders.Rebalanceable(assets, s.weights.value, edited)
  {
    EqualSplitSumsToOne(assets);
  }

  /** Resolving an absent staged map gives what the sliders would show for it anyway. */
  lemma ResolvedMatchesDisplay(assets: seq<string>, a: string)
    requires a in assets
    ensures WeightSliders.DisplayWeight(StagedWeightsResolved(None, assets), assets, a)
         == WeightSliders.DisplayWeight([], assets, a)
  {
  }
}
