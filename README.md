# Steve's Strategy Builder: a verified model of the analytics core

This project models the data-shaping and analytics core of Steve's Strategy Builder, a crypto
portfolio-index dashboard. It has a Next.js front end, a FastAPI back end and a small
forecasting package. The model covers these parts:

- **Configuration panel.** The weight sliders redistribute the other weights when one slider
  moves. The asset selector toggles symbols without ever emptying the selection. The staged
  weights reset to an equal split.
- **Dashboard page.** It covers:
  - the normalised index and benchmark lines;
  - the metric cards (changes with their fallbacks, population variance, running-peak maximum
    drawdown, the Sharpe guard);
  - the indicator request and the lines drawn from its response;
  - the Value-at-Risk request with its return matrix.
- **Index engine.** Weight normalisation, buy-and-hold units, and periodic rebalancing on daily,
  Monday-weekly or month-change dates.
- **API pieces.** The TTL cache, the indicator dispatch with its parameter defaults and output
  keys, and the request schemas' defaults and range checks.
- **Front-end state.** The configuration store, with its partial merge and reset.
- **Chart shaping.** The VaR histogram bins, merged rows and reference lines. The
  model-comparison and forecast chart rows. The models page: available models, portfolio label,
  metrics table and toggles. The metric card's sign and colour.
- **Forecast error metrics.** MAE, RMSE and MAPE, the last with its zero-denominator guard.

Numbers are exact reals. `sqrt` is a function-valued parameter constrained by `Util.IsSqrt`. The
numeric indicator computations (`compute_sma` and the rest) are function-valued fields of
`Indicators.Technical`, and nothing is assumed about them beyond what each lemma states.

Each module follows one source file:

| module | source |
|---|---|
| `WeightSliders` | `weight-sliders.tsx` |
| `DashboardWeights`, `DashboardMetrics`, `DashboardRequests` | the dashboard `page.tsx` |
| `AssetSelector` | `asset-selector.tsx` |
| `IndexEngine` | `index_engine.py` |
| `TtlCache` | `memory.py` |
| `ConfigStore` | `index-config.ts` |
| `Indicators` | `routers/indicators.py` |
| `Schemas` | `schemas.py` |
| `VarHistogram` | `var-histogram.tsx` |
| `Predictions`, `ModelComparison` | `model-comparison-chart.tsx` |
| `ForecastChart` | `forecast-chart.tsx` |
| `ModelsPage` | `models/page.tsx` |
| `MetricCard` | `metric-card.tsx` |
| `Evaluation` | `ml/models/base.py` |

Three helper modules support them:

- `Util`: option, sums, filters, toggles, ASCII upper case, mean and the `sqrt` contract.
- `Records`: JavaScript plain objects as ordered association lists. Lookup takes the first match
  and assignment overwrites in place or appends.
- `Catalog`: the asset metadata table, passed in as a parameter.

Code that updates state step by step is imperative Dafny:

- the slider loop, the drawdown loop, the VaR row loop and the benchmark push loop;
- the index engine's in-place `index_values` array and its rebalance-date pass;
- the histogram's counting loop over an array;
- the chart rows filled key by key;
- the cache and the configuration store, each a class with a mutable field.

Each such method is proved against a function, and the lemmas are stated about that function.

## Model

| member | source | states |
|---|---|---|
| WeightSliders.Fraction | frontend/src/components/configure/weight-sliders.tsx:23-24 | the edited fraction is `min(pct,100)/100`: at most 1, `pct/100` up to the cap and 1 above it; negatives are not guarded |
| WeightSliders.NewWeight | frontend/src/components/configure/weight-sliders.tsx:30-40 | the weight the loop assigns to asset `a`; its three cases are stated by `Fraction`, `ScaledWeight` and `EqualSplitWhenOthersZero` and its sum by `SumToOne` |
| WeightSliders.HandleChange | frontend/src/components/configure/weight-sliders.tsx:22-40 | the loop builds a record with exactly one key per selected asset (in order when distinct); every asset reads back its new weight; the edited asset reads back exactly the capped fraction; under `Rebalanceable` the values sum to 1 |
| WeightSliders.UpdatedSumsToOne | frontend/src/components/configure/weight-sliders.tsx:30-40 | a record holding exactly the new weights of a rebalanceable selection sums to 1 |
| WeightSliders.SumToOne | frontend/src/components/configure/weight-sliders.tsx:25-39 | with distinct assets, n ≥ 2, the edited asset among them, distinct record keys and no stored key outside the selection, the new weights sum to 1; no sign condition on the weights or on pct is needed |
| WeightSliders.NewSumScaled | frontend/src/components/configure/weight-sliders.tsx:34-35 | with positive `othersTotal`, the new weights over any key list are the fraction plus the old weights times `remaining / othersTotal` |
| WeightSliders.NewSumShared | frontend/src/components/configure/weight-sliders.tsx:36-38 | otherwise they are the fraction plus one share `remaining/(n−1)` per other asset |
| WeightSliders.RatiosPreserved | frontend/src/components/configure/weight-sliders.tsx:34-35 | when the others weighed something, the ratio between any two untouched assets is unchanged |
| WeightSliders.ScaledWeight | frontend/src/components/configure/weight-sliders.tsx:35 | each untouched asset becomes `(weights[a] ?? 0) * remaining / othersTotal` |
| WeightSliders.EqualSplitWhenOthersZero | frontend/src/components/configure/weight-sliders.tsx:36-38 | when the others weigh nothing, each gets `remaining/(n−1)`, or 0 when the edited asset is alone |
| WeightSliders.StaleKeyBreaksSum | frontend/src/components/configure/weight-sliders.tsx:26-28 | `othersTotal` also counts keys outside the selection: a stale key makes the new weights of {A, B} sum to 2/3 |
| WeightSliders.Position | frontend/src/components/configure/weight-sliders.tsx:12-20 | `indexOf` in the metadata key order: −1 iff the symbol is unknown, else a valid position |
| WeightSliders.PositionFirst | frontend/src/components/configure/weight-sliders.tsx:12-20 | a known symbol's position holds it and no earlier position does |
| WeightSliders.Sorted | frontend/src/components/configure/weight-sliders.tsx:19-21 | the display order, built by stable insertion on metadata position; `SortedPermutes` proves it sorted and a permutation of the selection |
| WeightSliders.SortedPermutes | frontend/src/components/configure/weight-sliders.tsx:19-21 | the display order is sorted by metadata position and is a permutation of the selection |
| WeightSliders.InsertSorted | frontend/src/components/configure/weight-sliders.tsx:19-21 | stable insertion keeps a list sorted by position |
| WeightSliders.InsertCounts | frontend/src/components/configure/weight-sliders.tsx:19-21 | insertion adds exactly one occurrence of the element |
| WeightSliders.UnknownFirst | frontend/src/components/configure/weight-sliders.tsx:19-21 | symbols missing from the metadata are displayed before every known one |
| WeightSliders.DisplayWeight | frontend/src/components/configure/weight-sliders.tsx:47 | the stored weight of a slider, else `1 / assets.length`; `EmptyWeightsDisplayEqualSplit` and `EqualSplitSumsToOne` state the fallback |
| WeightSliders.EmptyWeightsDisplayEqualSplit | frontend/src/components/configure/weight-sliders.tsx:47 | with no stored weights every slider shows `1 / assets.length` |
| WeightSliders.EqualSplitSumsToOne | frontend/src/components/configure/weight-sliders.tsx:47 | the displayed fallback weights of the selection sum to 1 |
| Catalog.SliderLabel | frontend/src/components/configure/weight-sliders.tsx:49 | the slider label is the metadata name, or the upper-cased symbol when there is none |
| Catalog.NameOr | frontend/src/app/models/page.tsx:41 | `ASSET_METADATA[a]?.name ?? fallback` |
| DashboardWeights.EqualSplit | frontend/src/app/page.tsx:56-57 | `Object.fromEntries` of the equal split: every selected asset maps to `1/n`, nothing else has a key |
| DashboardWeights.EqualSplitSumsToOne | frontend/src/app/page.tsx:56-57 | an equal split over a distinct, non-empty selection sums to 1 |
| DashboardWeights.StagedWeightsResolved | frontend/src/app/page.tsx:54-58 | staged weights are used as they are; a null map resolves to `1/n` per staged asset |
| DashboardWeights.HandleAssetsChange | frontend/src/app/page.tsx:60-68 | a selection change adopts the new list and always stages the `1/n` split over it |
| DashboardWeights.AssetsChangeResetsToSimplex | frontend/src/app/page.tsx:60-68 | after any selection change the staged weights sum to 1 and a later slider edit keeps them at 1 |
| DashboardWeights.ResolvedMatchesDisplay | frontend/src/app/page.tsx:54-58 | resolving a null map gives each slider the weight it would show anyway |
| Util.ToggleMember | frontend/src/app/page.tsx:85-88 | `toggleBenchmark`: removes a present ticker, appends an absent one at the end, and keeps a distinct list distinct |
| Util.ToggleTwice | frontend/src/app/page.tsx:85-88 | toggling the same ticker twice restores membership |
| DashboardMetrics.Base | frontend/src/app/page.tsx:93-105 | `values[0] \|\| 1`: the first value when it is present and non-zero, else 1; never zero |
| DashboardMetrics.Normalize | frontend/src/app/page.tsx:94-109 | one point per date; each point's value times the base is the raw value |
| DashboardMetrics.NormalizedStartsAtOne | frontend/src/app/page.tsx:93-97 | a normalised line starts at exactly 1 |
| DashboardMetrics.NormalizeScaleFree | frontend/src/app/page.tsx:93-97 | scaling every value by the same non-zero factor leaves the line unchanged |
| DashboardMetrics.BenchmarkLine | frontend/src/app/page.tsx:102-110 | a benchmark gives a line iff its ticker is known and its series is non-empty; the line carries the benchmark's name, colour and normalised prices |
| DashboardMetrics.BenchmarkLines | frontend/src/app/page.tsx:101-112 | at most one line per benchmark entry |
| DashboardMetrics.BenchmarkCandidates | frontend/src/app/page.tsx:102-111 | the line each entry would give, one per entry, in entry order |
| DashboardMetrics.BenchmarkLinesExact | frontend/src/app/page.tsx:101-112 | the pushed lines are exactly the lines of the usable entries, in entry order, with the unusable entries skipped |
| DashboardMetrics.BenchmarkLinesKnown | frontend/src/app/page.tsx:101-112 | every pushed line is the line of some entry |
| DashboardMetrics.BenchmarkLinesAll | frontend/src/app/page.tsx:101-112 | when every ticker is known and non-empty, there is one line per entry, in entry order |
| DashboardMetrics.IndexSeriesOf | frontend/src/app/page.tsx:91-115 | no data gives no lines; otherwise the index line comes first, followed by the benchmark lines |
| DashboardMetrics.IndexSeries | frontend/src/app/page.tsx:91-115 | the push loop builds exactly `IndexSeriesOf` |
| DashboardMetrics.Change | frontend/src/app/page.tsx:131-150 | a percentage change `c` satisfies `c * prev == (current − prev) * 100` |
| DashboardMetrics.Returns | frontend/src/app/page.tsx:125 | n−1 returns, with `v[i] + v[i] * r[i] == v[i+1]` for each |
| DashboardMetrics.Variance | frontend/src/app/page.tsx:126-128 | the population variance of the returns around their mean; `VarianceBounds` and `ConstantVariance` state its sign and its zero |
| DashboardMetrics.VarianceBounds | frontend/src/app/page.tsx:126-128 | the population variance is never negative and is zero when every return equals the mean |
| DashboardMetrics.ConstantVariance | frontend/src/app/page.tsx:126-128 | returns that are all equal have zero variance |
| DashboardMetrics.PeakAt | frontend/src/app/page.tsx:133-136 | the running peak after position i; `PeakIsMax` proves it the prefix maximum and one of the values |
| DashboardMetrics.PeakIsMax | frontend/src/app/page.tsx:133-136 | the running peak is the largest value so far and is one of the values |
| DashboardMetrics.Drawdown | frontend/src/app/page.tsx:137 | the drawdown `(v − peak) / peak` at position i; `DrawdownBounds` bounds it in (−1, 0] for positive values |
| DashboardMetrics.MaxDrawdownUpTo | frontend/src/app/page.tsx:134-139 | the drawdown accumulator never rises above 0 |
| DashboardMetrics.MaxDrawdownIsMin | frontend/src/app/page.tsx:133-139 | the maximum drawdown is at most every prefix drawdown `(v − peak)/peak`, and equals 0 or one of them |
| DashboardMetrics.MaxDrawdown | frontend/src/app/page.tsx:133-139 | the loop that reassigns `peak` and `maxDrawdown` computes `MaxDrawdownUpTo` over the whole series |
| DashboardMetrics.DrawdownBounds | frontend/src/app/page.tsx:133-139 | for positive values the maximum drawdown lies in (−1, 0] |
| DashboardMetrics.Prior | frontend/src/app/page.tsx:123-124 | the 7d and 30d reference value is one of the series' values |
| DashboardMetrics.SnapshotOf | frontend/src/app/page.tsx:118-155 | the metric snapshot of a series of at least two values; `ChangeCards`, `RiskCards` and `MaxDrawdownCardBounds` state its fields |
| DashboardMetrics.Metrics | frontend/src/app/page.tsx:117-156 | null iff there is no data or fewer than 2 values; otherwise the snapshot of the index values |
| DashboardMetrics.ChangeCards | frontend/src/app/page.tsx:120-150 | current is the last value; the 1d change is against `vals[n−2]`; the 7d and 30d changes are against `vals[n−8]` and `vals[n−31]` when those exist, otherwise they equal the total return |
| DashboardMetrics.RiskCards | frontend/src/app/page.tsx:141-153 | the drawdown card is ≤ 0, and a non-positive deviation reports a Sharpe ratio of 0 |
| DashboardMetrics.Sharpe | frontend/src/app/page.tsx:141-144 | the annualised excess return over the deviation, guarded to 0 when the deviation is not positive; `RiskCards` and `ZeroVarianceZeroSharpe` state the guard |
| DashboardMetrics.ZeroVarianceZeroSharpe | frontend/src/app/page.tsx:143-144 | zero variance gives a Sharpe ratio of 0 |
| DashboardMetrics.ConstantReturnsZeroSharpe | frontend/src/app/page.tsx:125-144 | a series growing at a constant rate has a Sharpe ratio of 0 |
| DashboardMetrics.MaxDrawdownCardBounds | frontend/src/app/page.tsx:133-153 | with positive index values the Max Drawdown card lies in (−100, 0] |
| DashboardMetrics.DrawdownExample | frontend/src/app/page.tsx:131-153 | 100, 110, 99, 150 gives a maximum drawdown of −10 and a total return of 50 |
| DashboardRequests.IndicatorReq | frontend/src/app/page.tsx:165-182 | null iff there is no data, the prices or dates are empty, or the tab is "var"; otherwise the request is on "Index" for the tab, with the index values and dates |
| DashboardRequests.TabParams | frontend/src/app/page.tsx:167-173 | the `paramsMap` entry of a tab, or `{}` for a tab without one; `RequestParams` states its keys and values |
| DashboardRequests.ParamKeys | frontend/src/app/page.tsx:167-173 | the parameter keys each tab sends, the reference `RequestParams` compares `TabParams` with |
| DashboardRequests.RequestParams | frontend/src/app/page.tsx:167-180 | the request's params have exactly the tab's parameter names, each holding its slider's value; an unknown tab sends `{}` |
| DashboardRequests.IndicatorReqAccepted | frontend/src/app/page.tsx:174-177 | every request sent from one of the panel's tabs passes the API's indicator pattern |
| DashboardRequests.InitialSlidersAreApiDefaults | frontend/src/app/page.tsx:38-44 | with the initial slider positions the API resolves exactly the parameters it uses for an empty `params` |
| DashboardRequests.MacdSignalAlwaysDefault | frontend/src/app/page.tsx:171 | the page never sends `signal_window`, so MACD always runs with signal 9 |
| DashboardRequests.Cell | frontend/src/app/page.tsx:193-195 | a cell is 0 when the series is missing or `p[i]` or `p[i−1]` is missing or zero; otherwise it is the simple return |
| DashboardRequests.Row | frontend/src/app/page.tsx:192-196 | one cell per configured asset, in configuration order |
| DashboardRequests.ReturnMatrix | frontend/src/app/page.tsx:189-198 | one row per date after the first |
| DashboardRequests.PortfolioValue | frontend/src/app/page.tsx:204 | the last index value, or 1000 when there is none at that position |
| DashboardRequests.VarReq | frontend/src/app/page.tsx:186-206 | null iff the tab is not "var" or there is no data; otherwise the loop builds the request with the return matrix, `asset_names == config.assets`, the slider values and the portfolio value |
| DashboardRequests.ReturnMatrixShape | frontend/src/app/page.tsx:189-198 | row k has one cell per asset, and cell (k, j) is asset j's day-(k+1) return |
| DashboardRequests.VarColumnIsReturns | frontend/src/app/page.tsx:192-196 | for a component whose prices are all non-zero and cover the dates, its column is the dashboard's return series of those prices |
| DashboardRequests.LineColor | frontend/src/app/page.tsx:212-225 | the palette colour of each output key, falling back to #6B7280 |
| DashboardRequests.Candidates | frontend/src/app/page.tsx:226-229 | one candidate per date |
| DashboardRequests.LinePoints | frontend/src/app/page.tsx:226-230 | the points of one indicator line; `LinePointsKept` and `LinePointMembers` state that they are the non-null values in date order |
| DashboardRequests.LinePointsKept | frontend/src/app/page.tsx:226-230 | the points of a line are the candidates with the nulls dropped, kept date by date |
| DashboardRequests.LinePointMembers | frontend/src/app/page.tsx:226-230 | a point is drawn iff its date carries a non-null value, paired with that value |
| DashboardRequests.IndicatorLines | frontend/src/app/page.tsx:210-232 | no response gives no lines; otherwise there is one line per output key, in order, named by the upper-cased key, with its palette colour and its non-null points |
| DashboardRequests.ComputedLines | frontend/src/app/page.tsx:223-225 | the chart shows one line per output key of the computed indicator, named by the upper-cased key |
| AssetSelector.Toggle | frontend/src/components/configure/asset-selector.tsx:22-30 | a selected symbol is removed only from a selection of more than one, and a singleton is unchanged; an unselected symbol is appended at the end |
| AssetSelector.ToggleKeepsSelection | frontend/src/components/configure/asset-selector.tsx:22-30 | a distinct, non-empty selection stays distinct and non-empty |
| AssetSelector.ToggleAllNonEmpty | frontend/src/components/configure/asset-selector.tsx:22-30 | no sequence of clicks empties a distinct, non-empty selection |
| AssetSelector.DuplicateSelectionEmpties | frontend/src/components/configure/asset-selector.tsx:24-25 | the guard counts entries, so a selection holding one symbol twice is emptied by one click |
| AssetSelector.ToggleCategory | frontend/src/components/configure/asset-selector.tsx:32-39 | the clicked category flips between open and closed, and the others are unchanged |
| AssetSelector.ToggleCategoryTwice | frontend/src/components/configure/asset-selector.tsx:32-39 | clicking a header twice restores the open set |
| AssetSelector.CategoryAssets | frontend/src/components/configure/asset-selector.tsx:43-45 | exactly the metadata entries of that category, in metadata order |
| AssetSelector.AssetsByCategory | frontend/src/components/configure/asset-selector.tsx:41-46 | one group per category, in order, each holding exactly the metadata entries of its category, in metadata order |
| AssetSelector.SelectedCount | frontend/src/components/configure/asset-selector.tsx:52-54 | at most the category's size, and positive iff some entry is selected |
| AssetSelector.SelectedCountAppend | frontend/src/components/configure/asset-selector.tsx:52-54 | the count of two runs of entries is the sum of their counts, so with the positivity clause it counts one per selected entry |
| AssetSelector.SelectedCountAll | frontend/src/components/configure/asset-selector.tsx:52-54 | a category whose entries are all selected counts its full size |
| AssetSelector.CryptoStartsOpen | frontend/src/components/configure/asset-selector.tsx:18-20 | only the crypto group is open at first, and one click on its header closes it |
| IndexEngine.AssetColumns | api/app/services/index_engine.py:11 | every column except "Index", in order |
| IndexEngine.RawWeights | api/app/services/index_engine.py:13-17 | one weight per asset |
| IndexEngine.EqualWeightsWhenMissing | api/app/services/index_engine.py:13-15 | without a weights map all weights are equal and sum to 1 |
| IndexEngine.MappedWeights | api/app/services/index_engine.py:17 | an asset missing from the map gets 0, every other asset its mapped weight |
| IndexEngine.NormalizeWeights | api/app/services/index_engine.py:18-20 | a non-positive total leaves the weights unchanged |
| IndexEngine.NormalizedProportional | api/app/services/index_engine.py:19-20 | each rescaled weight times the old total is the old weight |
| IndexEngine.NormalizedSumsToOne | api/app/services/index_engine.py:18-20 | weights with a positive total are rescaled to sum to exactly 1 |
| IndexEngine.Units | api/app/services/index_engine.py:25-41 | the units buying `value * w[j]` of each asset at its price |
| IndexEngine.UnitsWorth | api/app/services/index_engine.py:25 | units bought at prices `p` are worth `value * sum(w)` at `p` |
| IndexEngine.UnitsAfter | api/app/services/index_engine.py:36-41 | the units held after day k: the previous units, reset on a rebalance date |
| IndexEngine.IndexValue | api/app/services/index_engine.py:25-41 | day 0 is the initial level, and day i is the units held after day i−1 valued at day i's prices; `NoneIsBuyAndHold` and `RebalanceKeepsValue` state its properties |
| IndexEngine.EffectiveDates | api/app/services/index_engine.py:29-34 | no rebalance dates for "none", else the dates of the frequency |
| IndexEngine.ComputeIndex | api/app/services/index_engine.py:5-43 | `index_values` has one entry per date; entry i is `IndexValue` with the initial level and units, the normalised weights and the rebalance dates of the frequency ("none" for none) |
| IndexEngine.HoldUnits | api/app/services/index_engine.py:26-32 | the "none" branch fills day 0 with the level and every later day with the initial units' worth |
| IndexEngine.HoldAndRebalance | api/app/services/index_engine.py:34-43 | each day is valued with the units held before it, and those units are reset on a rebalance date |
| IndexEngine.NoneIsBuyAndHold | api/app/services/index_engine.py:29-31 | with "none", every later value is the initial units valued at that day's prices |
| IndexEngine.BuyAndHold | api/app/services/index_engine.py:36-41 | with no rebalance dates the units never change |
| IndexEngine.UnknownFrequencyNeverRebalances | api/app/services/index_engine.py:46-62 | an unknown frequency rebalances on no date |
| IndexEngine.InitialUnitsWorthLevel | api/app/services/index_engine.py:25-27 | with weights summing to 1 the initial units are worth the initial level on day 0 |
| IndexEngine.RebalanceKeepsValue | api/app/services/index_engine.py:37-41 | rebalancing on day k keeps that day's value: the new units at the day's prices are worth the recorded value |
| IndexEngine.RebalanceSpec | api/app/services/index_engine.py:46-62 | every date for daily, the Monday dates for weekly, the month changes for monthly, none otherwise; `RebalanceDates` proves the loop equal to it |
| IndexEngine.MonthChange | api/app/services/index_engine.py:58 | date i falls in a different month from date i−1 |
| IndexEngine.RebalanceDates | api/app/services/index_engine.py:46-62 | the one-pass loop returns exactly `RebalanceSpec`: all dates for "daily", the weekday-0 dates for "weekly", the month-change dates for "monthly", none otherwise |
| IndexEngine.DailyAndWeekly | api/app/services/index_engine.py:47-54 | daily rebalancing uses every date, weekly exactly the Mondays |
| IndexEngine.MonthlySkipsFirst | api/app/services/index_engine.py:55-60 | with distinct dates the first date is never a monthly date |
| IndexEngine.MonthlyIsMonthChange | api/app/services/index_engine.py:55-60 | a date is a monthly date iff its month differs from the previous date's month |
| TtlCache.CacheGet | api/app/cache/memory.py:10-18 | an absent key gives None; an expired entry (`now > expires_at`) is deleted and gives None; a live entry, including one at exactly `expires_at`, gives its value; no key is added |
| TtlCache.CacheSet | api/app/cache/memory.py:20-21 | the key stores `(now + ttl, value)`, overwriting any earlier entry; other keys are unchanged |
| TtlCache.GetKeepsOthers | api/app/cache/memory.py:10-18 | a get changes no entry other than deleting its own key |
| TtlCache.GetAfterSet | api/app/cache/memory.py:14-21 | after `set(k, v)` at t, `get(k)` at t' gives v iff t' ≤ t + ttl, and None otherwise |
| TtlCache.SetOtherKey | api/app/cache/memory.py:20-21 | setting one key does not change what a get of another key returns |
| TtlCache.StaleStaysGone | api/app/cache/memory.py:15-17 | once an expired entry has been read, it stays gone |
| TtlCache.DefaultExpiry | api/app/cache/memory.py:6-21 | with the default TTL of 300 seconds, a value written at t is read back exactly while the clock is at most t + 300 |
| TtlCache.SharedCache | api/app/cache/memory.py:27 | the module's shared cache is a fresh, empty cache with the default TTL |
| TtlCache.Cache.constructor | api/app/cache/memory.py:6-8 | an empty store with the given TTL |
| TtlCache.Cache.Get | api/app/cache/memory.py:10-18 | the store and result are exactly `CacheGet` of the old store |
| TtlCache.Cache.Set | api/app/cache/memory.py:20-21 | the store becomes `CacheSet` of the old store |
| TtlCache.Cache.Clear | api/app/cache/memory.py:23-24 | the store is emptied |
| ConfigStore.DefaultConfig | frontend/src/store/index-config.ts:11-17 | the default assets and dates, weights null, initial level 1000 |
| ConfigStore.Merge | frontend/src/store/index-config.ts:21-22 | each field present in the partial overrides the config's field, and every absent field is kept |
| ConfigStore.MergeIdempotent | frontend/src/store/index-config.ts:21-22 | applying the same partial twice equals applying it once |
| ConfigStore.MergeNoChange | frontend/src/store/index-config.ts:21-22 | an empty partial leaves the config unchanged |
| ConfigStore.MergeThen | frontend/src/store/index-config.ts:21-22 | two merges in a row are one merge of the combined partial |
| ConfigStore.MergeFull | frontend/src/store/index-config.ts:21-22 | a partial with every field replaces the config entirely |
| ConfigStore.Store.constructor | frontend/src/store/index-config.ts:19-20 | the store starts at the default config |
| ConfigStore.Store.SetConfig | frontend/src/store/index-config.ts:21-22 | the config becomes the merge of the old config with the partial |
| ConfigStore.Store.ResetConfig | frontend/src/store/index-config.ts:23 | the config becomes the default config, whatever it was |
| Indicators.ToNullableList | api/app/routers/indicators.py:16-17 | same length; NaN becomes None and every number is kept |
| Indicators.Trunc | api/app/routers/indicators.py:26-72 | `int(x)` truncates toward zero: the result is within 1 of x, on the side of 0 |
| Indicators.TruncWhole | api/app/routers/indicators.py:26 | truncating a whole number keeps it |
| Indicators.Resolve | api/app/routers/indicators.py:25-79 | the call for each indicator: windows truncated; defaults 50, 14, 20 and 2.0, 12/26/9, 30; unknown names select no call |
| Indicators.DefaultParameters | api/app/routers/indicators.py:26-72 | a request without params runs with exactly the defaults |
| Indicators.Param | api/app/routers/indicators.py:26-72 | `params.get(key, default)`, the first occurrence of the key or the default |
| Indicators.Compute | api/app/routers/indicators.py:20-79 | a known indicator echoes the request's dates; an unknown one returns no dates and no series |
| Indicators.SmaSeries | api/app/routers/indicators.py:25-31 | `price` is the request's prices and `sma` is the moving average over the truncated `window` (default 50) |
| Indicators.RsiSeries | api/app/routers/indicators.py:33-39 | `rsi` is the index over the truncated `window` (default 14) |
| Indicators.BollingerSeries | api/app/routers/indicators.py:41-53 | `price` is the prices; `sma`, `upper` and `lower` are the three bands of one computation over the truncated `window` (default 20) and `num_std` (default 2.0) |
| Indicators.MacdSeries | api/app/routers/indicators.py:55-69 | `macd`, `signal` and `histogram` are the three outputs of one computation over the truncated windows (defaults 12, 26, 9) |
| Indicators.VolatilitySeries | api/app/routers/indicators.py:71-77 | `volatility` is the rolling volatility over the truncated `window` (default 30) |
| Indicators.DefaultSeries | api/app/routers/indicators.py:25-77 | a request without parameters computes each indicator at its default windows |
| Indicators.OutputKeys | api/app/routers/indicators.py:25-79 | the response keys of each indicator, the reference `ComputeKeys` compares the response with |
| Indicators.Outputs | api/app/routers/indicators.py:25-77 | the output series of each computation, price verbatim and the rest through `_to_nullable_list`; the per-indicator lemmas below state each value |
| Indicators.ComputeKeys | api/app/routers/indicators.py:30-79 | the response keys are exactly {price, sma}, {rsi}, {price, sma, upper, lower}, {macd, signal, histogram}, {volatility}, or none |
| Indicators.PriceVerbatim | api/app/routers/indicators.py:30-48 | the "price" series of sma and bollinger is the request's prices, none of them null |
| Indicators.SeriesAligned | api/app/routers/indicators.py:25-77 | with length-preserving computations every series has one entry per returned date |
| Schemas.DefaultIndexConfig | api/app/models/schemas.py:20-26 | the three default assets, no weights, the default dates, level 1000 and rebalance "none", which passes its own pattern |
| Schemas.ValidIndexConfig | api/app/models/schemas.py:26 | an index request is accepted iff its rebalance frequency is none, daily, weekly or monthly |
| Schemas.DefaultIndicatorRequest | api/app/models/schemas.py:35-40 | asset defaults to "Index" and params to `{}` |
| Schemas.ValidIndicatorRequest | api/app/models/schemas.py:37 | an indicator request is accepted iff its indicator is sma, rsi, bollinger, macd or volatility |
| Schemas.DefaultVarRequest | api/app/models/schemas.py:48-53 | 10000 simulations, confidence 0.95, portfolio value 1000 |
| Schemas.ValidVarRequest | api/app/models/schemas.py:51-52 | a VaR request is accepted iff it asks for 1000 to 50000 simulations at a confidence of 0.80 to 0.99 |
| Schemas.DefaultsValid | api/app/models/schemas.py:20-52 | every default passes its own constraint |
| Schemas.SliderValuesValid | frontend/src/app/page.tsx:431-436 | every value pair the VaR sliders can produce is accepted |
| VarHistogram.SeqMin | frontend/src/components/charts/var-histogram.tsx:24 | the minimum is one of the values and no value is below it |
| VarHistogram.SeqMax | frontend/src/components/charts/var-histogram.tsx:25 | the maximum is one of the values and no value is above it |
| VarHistogram.BinIndexInRange | frontend/src/components/charts/var-histogram.tsx:32 | a value at or above the minimum gets a bin index in [0, n) |
| VarHistogram.BinBounds | frontend/src/components/charts/var-histogram.tsx:32 | an unclamped index i means `lo + step*i ≤ v < lo + step*(i+1)` |
| VarHistogram.MaxInLastBin | frontend/src/components/charts/var-histogram.tsx:32 | the maximum's raw index is n, clamped into the last bin |
| VarHistogram.Bins | frontend/src/components/charts/var-histogram.tsx:27-34 | n bins; bin i is centred at `lo + step*(i + 0.5)` and counts the values whose index is i |
| VarHistogram.Histogram | frontend/src/components/charts/var-histogram.tsx:22-36 | empty data gives no bins; non-empty data needs at least one bin, since the source's `bins[idx].count++` throws when there are none; otherwise the n bins from the minimum with step `(max − min)/n` |
| VarHistogram.BuildBins | frontend/src/components/charts/var-histogram.tsx:22-36 | the in-place counting builds exactly `Histogram` |
| VarHistogram.CountValues | frontend/src/components/charts/var-histogram.tsx:31-34 | after the loop, each counter holds the tally of its bin |
| VarHistogram.HistogramCountsEveryValue | frontend/src/components/charts/var-histogram.tsx:31-34 | the counts add up to the number of values: each value is counted exactly once |
| VarHistogram.Merged | frontend/src/components/charts/var-histogram.tsx:48-52 | one row per Monte Carlo bin with its centre and count; the Cholesky count at the same position, or 0 past its end |
| VarHistogram.ChartRows | frontend/src/components/charts/var-histogram.tsx:45-52 | both samples binned with the default 60 bins: no rows without Monte Carlo data, else 60 rows; each Cholesky count is that sample's bin count, or 0 when the sample is empty |
| VarHistogram.MergedTotals | frontend/src/components/charts/var-histogram.tsx:48-52 | merging two bin lists of equal length keeps each column's total count |
| VarHistogram.ChartRowsCountEverySample | frontend/src/components/charts/var-histogram.tsx:22-52 | with both samples present, the Monte Carlo column adds up to the Monte Carlo sample size and the Cholesky column to the Cholesky sample size |
| VarHistogram.Nearest | frontend/src/components/charts/var-histogram.tsx:75-89 | the chosen bin's centre is nearest to the target, and no earlier bin is as near |
| VarHistogram.ReferenceX | frontend/src/components/charts/var-histogram.tsx:75-89 | the reference line sits on the centre of a bin at minimal distance from the VaR |
| Predictions.At | frontend/src/components/charts/model-comparison-chart.tsx:47-50 | `s[i]`, undefined past the end |
| Predictions.Last | frontend/src/components/charts/forecast-chart.tsx:29-42 | the last element, undefined for an empty list |
| Predictions.NamesSubsequence | frontend/src/app/models/page.tsx:33-35 | dropping predictions keeps the remaining names in their original order |
| Predictions.Shown | frontend/src/components/charts/model-comparison-chart.tsx:42-44 | a prediction is drawn iff its model is selected and it predicted something |
| Predictions.Active | frontend/src/components/charts/model-comparison-chart.tsx:42-44 | exactly the selected predictions with a non-empty `predicted`, in original order |
| Predictions.ModelEntries | frontend/src/components/charts/model-comparison-chart.tsx:48-52 | the model keys of row i, assigned in active order; `ModelEntriesLookup` and `InactiveAbsent` state its lookups |
| Predictions.InactiveAbsent | frontend/src/components/charts/model-comparison-chart.tsx:48-52 | a name no active model carries never appears in a row |
| Predictions.ModelEntriesLookup | frontend/src/components/charts/model-comparison-chart.tsx:48-52 | with distinct names, an active model has a key in row i iff `i < predicted.length`, and the value is `predicted[i]` |
| ModelComparison.ModelColor | frontend/src/components/charts/model-comparison-chart.tsx:13-83 | the colour table, with fallback #6B7280 |
| ModelComparison.ModelDash | frontend/src/components/charts/model-comparison-chart.tsx:20-86 | the dash table, with fallback "4 2" |
| ModelComparison.KnownModelsHaveOwnColours | frontend/src/components/charts/model-comparison-chart.tsx:13-18 | each known model has its own colour, none of them the fallback |
| ModelComparison.ModelRow | frontend/src/components/charts/model-comparison-chart.tsx:47-53 | assigning model by model builds exactly the row's model entries |
| ModelComparison.ComparisonData | frontend/src/components/charts/model-comparison-chart.tsx:42-54 | one row per date in order: the date, `actualValues[i]` and the active models' entries |
| ModelComparison.RowsFor | frontend/src/components/charts/model-comparison-chart.tsx:46-54 | the row loop over a fixed list of active models |
| ModelComparison.RowValues | frontend/src/components/charts/model-comparison-chart.tsx:42-52 | a shown model has a value in row i iff it predicted that far, and that value is its prediction; an unselected model never appears, nor, when names are distinct, a model with no predictions |
| ForecastChart.LastTrailingDate | frontend/src/components/charts/forecast-chart.tsx:29 | the last trailing date, or undefined when there is none |
| ForecastChart.TrailingRows | frontend/src/components/charts/forecast-chart.tsx:32-38 | one row per trailing date with its actual value and no model keys |
| ForecastChart.ForecastRows | frontend/src/components/charts/forecast-chart.tsx:25-51 | trailing rows first, then one row per forecast date; only forecast row 0 carries Actual, the last trailing value; model keys as in the comparison chart |
| ForecastChart.ForecastPart | frontend/src/components/charts/forecast-chart.tsx:39-50 | the forecast-row loop over a fixed list of active models |
| ForecastChart.ReferenceOnLastTrailingRow | frontend/src/components/charts/forecast-chart.tsx:29-71 | the reference line sits on the date of the last trailing row |
| ModelsPage.AvailableModels | frontend/src/app/models/page.tsx:31-36 | all three models while nothing is loaded; otherwise a name is available iff some prediction with that name predicted something, and the names keep the predictions' order (a subsequence of their names) |
| ModelsPage.DisplayNames | frontend/src/app/models/page.tsx:41 | one display name per asset, falling back to the symbol |
| ModelsPage.PortfolioLabel | frontend/src/app/models/page.tsx:38-44 | null without an asset list; the one name for a single asset; otherwise "Equally Weighted (" + names joined by ", " + ")" |
| ModelsPage.EmptyAssetLabel | frontend/src/app/models/page.tsx:39-43 | an empty asset list is still a list: the label reads "Equally Weighted ()" |
| ModelsPage.ErrorCell | frontend/src/app/models/page.tsx:171-174 | MAE and RMSE show "—" only when missing |
| ModelsPage.MapeCell | frontend/src/app/models/page.tsx:177 | MAPE shows a dash iff it is missing or 0, otherwise the value × 100 |
| ModelsPage.ZeroErrorsShownDifferently | frontend/src/app/models/page.tsx:171-177 | a perfect model shows an MAE of 0 but a dash for its MAPE |
| ModelsPage.MetricsTable | frontend/src/app/models/page.tsx:165-178 | one row per active prediction, in order, with its name and cells |
| ModelsPage.TableModels | frontend/src/app/models/page.tsx:165-166 | a model has a table row iff it is selected and predicted something |
| ModelsPage.InitialTableIsAvailable | frontend/src/app/models/page.tsx:23-36 | with the initial selection of all three models, a model has a table row iff it is available and is one of the three |
| ModelsPage.ModelToggle | frontend/src/app/models/page.tsx:25-29 | toggling twice restores membership, and toggling keeps the selection distinct |
| MetricCard.DisplayValue | frontend/src/components/charts/metric-card.tsx:17-19 | in change mode, "+" iff change ≥ 0, then the rounded change and "%"; otherwise the value followed by the suffix, which defaults to "" |
| MetricCard.ValueColor | frontend/src/components/charts/metric-card.tsx:21-23 | emerald iff in change mode with change ≥ 0, red in change mode otherwise, foreground in value mode |
| MetricCard.ValueOverridesChange | frontend/src/components/charts/metric-card.tsx:17-21 | a non-empty value wins over any change |
| MetricCard.SignMatchesColour | frontend/src/components/charts/metric-card.tsx:17-22 | the "+" prefix is shown iff the colour is emerald |
| Evaluation.AbsErrors | ml/models/base.py:19 | non-negative, and zero exactly where actual equals predicted |
| Evaluation.SquaredErrors | ml/models/base.py:20 | non-negative, and zero exactly where actual equals predicted |
| Evaluation.Square | ml/models/base.py:20 | a square is never negative, and zero exactly at zero |
| Evaluation.Denominator | ml/models/base.py:21 | `np.where(actual == 0, 1, actual)` is never zero |
| Evaluation.PercentageErrors | ml/models/base.py:21 | non-negative, defined for every input including zero actual values |
| Evaluation.Evaluate | ml/models/base.py:18-22 | the result has exactly the keys mae, rmse and mape |
| Evaluation.MetricsNonNegative | ml/models/base.py:18-22 | mae, rmse and mape are ≥ 0, and rmse² is the mean squared error |
| Evaluation.PerfectForecast | ml/models/base.py:18-22 | a perfect forecast scores 0 on every metric |

## Left out

- Rendering: JSX, chart-library calls, tabs, sliders as widgets, collapsible panels and navigation are not modelled. The network hooks, the API routing, market-data fetching, the VaR engine (random sampling, covariance, Cholesky factorisation), the pandas indicator wrappers, the ML model wrappers, training and feature building are outside the core. `lib/constants` is not part of this model, so the asset metadata, categories, benchmarks and default assets and dates are parameters.
- Number formatting: `toFixed`, `toLocaleString`, `toLocaleDateString` and the histogram's `toFixed(5)` rounding of bin centres are left out. Values stay exact, and `MetricCard.DisplayValue` takes the two-decimal rendering as a parameter.
- Floating point: NaN, Infinity and rounding are not modelled. Cases that would produce them in the source are preconditions:
  - zero prices in the index engine and in returns;
  - zero index values in the metrics;
  - `max > min` in `VarHistogram.BuildBins`, since equal values make the JavaScript step 0 and every index NaN;
  - the length equality of prices and dates that `compute` needs to build its pandas series;
  - at least as many values as dates in `DashboardMetrics.Normalize` and `DashboardMetrics.Aligned`, since a missing value gives `undefined / base`, which is NaN.
- Square roots: `sqrt` is a function-valued parameter. Volatility and the Sharpe ratio are stated only through the `sqrt` contract and the zero-deviation guard.
- `DashboardMetrics.VarianceBounds`: zero variance is proved for equal returns, but not the converse (zero variance implies equal returns).
- `Util.Upper`: upper-cases ASCII letters only, not all of Unicode.
- `Records.Lookup`: keys are plain strings. JavaScript prototype keys such as `"constructor"` are not modelled.
- Model names: a model named "date" or "Actual" would collide with those row keys. That case is outside the model.
- `ConfigStore.Merge`: a field explicitly set to `undefined` in a partial is not modelled. Absent fields are `None`.
- `Indicators.Compute`: a JSON `params` object with duplicate keys is read as the first occurrence. Python's JSON decoding keeps the last occurrence instead.
- `IndexEngine.RawWeights`: requires a non-empty asset list when no weights map is given. The source raises `ZeroDivisionError` on `1.0 / len(assets)` in that case, and the model has no error result for it.
- `IndexEngine.ComputeIndex`: requires at least one price row (`IndexEngine.PriceTable`), so the model does not capture the `IndexError` the source raises on `prices[0]` for an empty price table.
- `IndexEngine.Date`: a date is modelled by its identity, weekday and month only. The pandas index is a sequence of such dates.
- `VarHistogram.Histogram`: requires at least one bin for non-empty data. The source throws on `bins[idx].count++` when there are no bins, and every call uses 60 bins.
- `VarHistogram.ReferenceX`: requires at least one bin, since `reduce` on an empty array throws in the source.
- `Evaluation.Evaluate`: requires equal-length, non-empty inputs. `np.mean` of an empty array and numpy broadcasting are not modelled.
- `TtlCache.Cache.Get`: the clock is the explicit `now` parameter instead of `time.time()`.
- `Schemas.ValidIndexConfig`: the pydantic regular-expression patterns are modelled as membership in their lists of alternatives.
- `AssetSelector.Toggle`: the length guard counts entries, not distinct symbols. `AssetSelector.DuplicateSelectionEmpties` shows a duplicated symbol being emptied. No toggle from a duplicate-free selection produces such a list.
