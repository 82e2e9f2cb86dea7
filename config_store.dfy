/**
 * The dashboard's global index configuration store: a single configuration record that is
 * replaced by a field-wise merge with a partial update, or reset to the defaults.
 */
module ConfigStore {
  import opened Util

  /** The configuration sent to the index service. */
  datatype IndexConfig = IndexConfig(
    assets: seq<string>,
    weights: Option<map<string, real>>,
    startTime: string,
    endTime: string,
    initialLevel: real)

  /** `Partial<IndexConfig>`: each field either present (`Some`) or absent (`None`). */
  datatype PartialConfig = PartialConfig(
    assets: Option<seq<string>>,
    weights: Option<Option<map<string, real>>>,
    startTime: Option<string>,
    endTime: Option<string>,
    initialLevel: Option<real>)

  /** The partial with no fields. */
  const NoChange: PartialConfig := PartialConfig(None, None, None, None, None)

  /**
   * `DEFAULT_CONFIG`. The default asset list and dates are configuration constants outside this
   * model, so they are parameters.
   */
  function DefaultConfig(defaultAssets: seq<string>, defaultStart: string, defaultEnd: string): (c: IndexConfig)
    ensures c.assets == defaultAssets && c.startTime == defaultStart && c.endTime == defaultEnd
    ensures c.weights == None
    ensures c.initialLevel == 1000.0
  {
    IndexConfig(defaultAssets, None, defaultStart, defaultEnd, 1000.0)
  }

  /** `{ ...config, ...partial }`. */
  function Merge(c: IndexConfig, p: PartialConfig): (r: IndexConfig)
    ensures r.assets == (if p.assets.Some? then p.assets.value else c.assets)
    ensures r.weights == (if p.weights.Some? then p.weights.value else c.weights)
    ensures r.startTime == (if p.startTime.Some? then p.startTime.value else c.startTime)
    ensures r.endTime == (if p.endTime.Some? then p.endTime.value else c.endTime)
    ensures r.initialLevel == (if p.initialLevel.Some? then p.initialLevel.value else c.initialLevel)
  {
    IndexConfig(
      p.assets.GetOr(c.assets),
      p.weights.GetOr(c.weights),
      p.startTime.GetOr(c.startTime),
      p.endTime.GetOr(c.endTime),
      p.initialLevel.GetOr(c.initialLevel))
  }

  /** The partial whose present fields are those of `q`, falling back to those of `p`. */
  function Then(p: PartialConfig, q: PartialConfig): PartialConfig {
    PartialConfig(
      if q.assets.Some? then q.assets else p.assets,
      if q.weights.Some? then q.weights else p.weights,
      if q.startTime.Some? then q.startTime else p.startTime,
      if q.endTime.Some? then q.endTime else p.endTime,
      if q.initialLevel.Some? then q.initialLevel else p.initialLevel)
  }

  /** Applying the same partial twice is applying it once. */
  lemma MergeIdempotent(c: IndexConfig, p: PartialConfig)
    ensures Merge(Merge(c, p), p) == Merge(c, p)
  {
  }

  /** The empty partial changes nothing. */
  lemma MergeNoChange(c: IndexConfig)
    ensures Merge(c, NoChange) == c
  {
  }

  /** Two successive merges are one merge with the later partial winning field by field. */
  lemma MergeThen(c: IndexConfig, p: PartialConfig, q: PartialConfig)
    ensures Merge(Merge(c, p), q) == Merge(c, Then(p, q))
  {
  }

  /** A partial holding every field replaces the whole configuration. */
  lemma MergeFull(c: IndexConfig, d: IndexConfig)
    ensures Merge(c, PartialConfig(Some(d.assets), Some(d.weights), Some(d.startTime), Some(d.endTime), Some(d.initialLevel))) == d
  {
  }

  /** `useIndexConfig`: the store holding the current configuration. */
  class Store {
    var config: IndexConfig
    const defaultAssets: seq<string>
    const defaultStart: string
    const defaultEnd: string

    constructor (assets: seq<string>, start: string, end: string)
      ensures defaultAssets == assets && defaultStart == start && defaultEnd == end
      ensures config == DefaultConfig(assets, start, end)
    {
      defaultAssets, defaultStart, defaultEnd := assets, start, end;
      config := DefaultConfig(assets, start, end);
    }

    /** `setConfig(partial)`. */
    method SetConfig(partial: PartialConfig)
      modifies this
      ensures config == Merge(old(config), partial)
    {
      config := Merge(config, partial);
    }

    /** `resetConfig()`: back to the defaults whatever the current configuration. */
    method ResetConfig()
      modifies this
      ensures config == DefaultConfig(defaultAssets, defaultStart, defaultEnd)
    {
      config := DefaultConfig(defaultAssets, defaultStart, defaultEnd);
    }
  }
}
