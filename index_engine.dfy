/**
 * The index engine of the API: a weighted basket of asset price series turned into one index
 * value series that starts at an initial level, either buy-and-hold or periodically rebalanced
 * back to the target weights.
 */
module IndexEngine {
  import opened Util

  /** A trading date: only its identity, weekday (Monday is 0) and month are read. */
  datatype Date = Date(day: int, weekday: int, month: int)

  // ---------------------------------------------------------------------------------------
  // Weights

  /** `[c for c in df_pivot.columns if c != "Index"]`: the asset columns of the price table. */
  function AssetColumns(columns: seq<string>): (assets: seq<string>)
    ensures forall c :: c in assets <==> c in columns && c != "Index"
    ensures Subsequence(assets, columns)
  {
    Filter(columns, c => c != "Index")
  }

  /**
   * `[weights.get(a, 0.0) for a in assets]`, where a missing weights map stands for the equal
   * weight `1 / len(assets)` on every asset.
   */
  function RawWeights(assets: seq<string>, weights: Option<map<string, real>>): (w: seq<real>)
    requires weights.None? ==> |assets| > 0
    ensures |w| == |assets|
  {
    match weights
    case None => seq(|assets|, i requires 0 <= i < |assets| => 1.0 / |assets| as real)
    case Some(m) => seq(|assets|, i requires 0 <= i < |assets| => if assets[i] in m then m[assets[i]] else 0.0)
  }

  /** Without a weights map every asset gets the same weight and the weights sum to 1. */
  lemma EqualWeightsWhenMissing(assets: seq<string>)
    requires |assets| > 0
    ensures forall i, j :: 0 <= i < |assets| && 0 <= j < |assets| ==> RawWeights(assets, None)[i] == RawWeights(assets, None)[j]
    ensures Sum(RawWeights(assets, None)) == 1.0
  {
    var w := RawWeights(assets, None);
    SumConstant(w, 1.0 / |assets| as real);
    QuotientCancels(|assets| as real, 1.0);
  }

  /** With a weights map, an asset missing from it gets weight 0 and every other its mapped weight. */
  lemma MappedWeights(assets: seq<string>, m: map<string, real>, i: nat)
    requires i < |assets|
    ensures assets[i] !in m ==> RawWeights(assets, Some(m))[i] == 0.0
    ensures assets[i] in m ==> RawWeights(assets, Some(m))[i] == m[assets[i]]
  {
  }

  /** Every weight divided by `t`. */
  function DivideAll(w: seq<real>, t: real): (r: seq<real>)
    requires t != 0.0
    ensures |r| == |w|
  {
    seq(|w|, i requires 0 <= i < |w| => w[i] / t)
  }

  /** `weight_arr / total` when the total is positive; otherwise the weights as they are. */
  function NormalizeWeights(w: seq<real>): (r: seq<real>)
    ensures |r| == |w|
    ensures Sum(w) <= 0.0 ==> r == w
  {
    if Sum(w) > 0.0 then DivideAll(w, Sum(w)) else w
  }

  /** Rescaling keeps the proportions: each normalised weight times the old total is the old weight. */
  lemma NormalizedProportional(w: seq<real>, i: nat)
    requires Sum(w) > 0.0 && i < |w|
    ensures NormalizeWeights(w)[i] * Sum(w) == w[i]
  {
    QuotientCancels(Sum(w), w[i]);
  }

  /** Weights with a positive total are rescaled to sum to exactly 1. */
  lemma NormalizedSumsToOne(w: seq<real>)
    requires Sum(w) > 0.0
    ensures Sum(NormalizeWeights(w)) == 1.0
  {
    SumDivided(w, Sum(w));
    DivideSelf(Sum(w));
  }

  lemma DivideSelf(t: real)
    requires t != 0.0
    ensures t / t == 1.0
  {
  }

  lemma {:induction false} SumDivided(w: seq<real>, t: real)
    requires t != 0.0
    ensures Sum(DivideAll(w, t)) == Sum(w) / t
  {
    if w != [] {
      var m := |w| - 1;
      var d := DivideAll(w, t);
      assert d[..m] == DivideAll(w[..m], t);
      SumDivided(w[..m], t);
      DivideAdd(Sum(w[..m]), w[m], t, Sum(d[..m]), d[m]);
    }
  }

  /** `a / t + b / t == (a + b) / t`, on named quotients. */
  lemma DivideAdd(a: real, b: real, t: real, qa: real, qb: real)
    requires t != 0.0 && qa == a / t && qb == b / t
    ensures qa + qb == (a + b) / t
  {
  }

  // ---------------------------------------------------------------------------------------
  // Holdings and values

  /** `np.dot(u, p)`. */
  function Dot(u: seq<real>, p: seq<real>): real
    requires |u| == |p|
  {
    if u == [] then 0.0 else Dot(u[..|u| - 1], p[..|p| - 1]) + u[|u| - 1] * p[|p| - 1]
  }

  /** `(value * weight_arr) / prices`: the units that invest `value` according to the weights. */
  function Units(value: real, w: seq<real>, p: seq<real>): (u: seq<real>)
    requires |w| == |p| && NonZero(p)
    ensures |u| == |w|
  {
    seq(|w|, j requires 0 <= j < |w| => (value * w[j]) / p[j])
  }

  predicate NonZero(p: seq<real>) {
    forall j :: 0 <= j < |p| ==> p[j] != 0.0
  }

  /** Units bought at prices `p` are worth `value * sum(w)` at those same prices. */
  lemma UnitsWorth(value: real, w: seq<real>, p: seq<real>)
    requires |w| == |p| && NonZero(p)
    ensures Dot(Units(value, w, p), p) == value * Sum(w)
  {
    var u := Units(value, w, p);
    forall j | 0 <= j < |u|
      ensures u[j] * p[j] == value * w[j]
    {
      ElementWorth(value, w, p, j);
    }
    DotOfUnits(u, w, p, value);
  }

  lemma ElementWorth(value: real, w: seq<real>, p: seq<real>, j: nat)
    requires |w| == |p| && NonZero(p) && j < |w|
    ensures Units(value, w, p)[j] * p[j] == value * w[j]
  {
    UnitWorth(value, w[j], p[j], Units(value, w, p)[j]);
  }

  /** Holdings each worth `value * w[j]` at prices `p` are worth `value * sum(w)` in total. */
  lemma {:induction false} DotOfUnits(u: seq<real>, w: seq<real>, p: seq<real>, value: real)
    requires |u| == |w| == |p|
    requires forall j :: 0 <= j < |u| ==> u[j] * p[j] == value * w[j]
    ensures Dot(u, p) == value * Sum(w)
  {
    if u != [] {
      var m := |u| - 1;
      DotOfUnits(u[..m], w[..m], p[..m], value);
      AddScaled(value, Sum(w[..m]), w[m], Dot(u[..m], p[..m]), u[m] * p[m]);
    }
  }

  lemma UnitWorth(value: real, wj: real, pj: real, uj: real)
    requires pj != 0.0 && uj == (value * wj) / pj
    ensures uj * pj == value * wj
  {
  }

  /** `v * a + v * b == v * (a + b)`, on named products. */
  lemma AddScaled(v: real, a: real, b: real, va: real, vb: real)
    requires va == v * a && vb == v * b
    ensures va + vb == v * (a + b)
  {
  }

  /** Well-formed inputs: one row per date, one non-zero price per asset in every row. */
  predicate PriceTable(prices: seq<seq<real>>, dates: seq<Date>, width: nat) {
    && |prices| > 0
    && |dates| == |prices|
    && forall i :: 0 <= i < |prices| ==> |prices[i]| == width && NonZero(prices[i])
  }

  /** The units held after day `k` has been processed (a rebalance on day `k` included). */
  function UnitsAfter(prices: seq<seq<real>>, dates: seq<Date>, reb: set<Date>, w: seq<real>, u0: seq<real>, k: nat): (u: seq<real>)
    requires PriceTable(prices, dates, |w|) && |u0| == |w| && k < |prices|
    ensures |u| == |w|
  {
    if k == 0 then u0
    else
      var held := UnitsAfter(prices, dates, reb, w, u0, k - 1);
      if dates[k] in reb then Units(Dot(held, prices[k]), w, prices[k]) else held
  }

  /** The index value on day `i`: the initial level, then the held units valued at that day's prices. */
  function IndexValue(prices: seq<seq<real>>, dates: seq<Date>, reb: set<Date>, w: seq<real>, u0: seq<real>,
                      level: real, i: nat): real
    requires PriceTable(prices, dates, |w|) && |u0| == |w| && i < |prices|
  {
    if i == 0 then level else Dot(UnitsAfter(prices, dates, reb, w, u0, i - 1), prices[i])
  }

  /** The dates on which the engine rebalances: none at all for `"none"`. */
  function EffectiveDates(dates: seq<Date>, freq: string): set<Date> {
    if freq == "none" then {} else RebalanceSpec(dates, freq)
  }

  /** `compute_index`: the index value series, filled in place one day at a time. */
  method ComputeIndex(columns: seq<string>, prices: seq<seq<real>>, dates: seq<Date>,
                      weights: Option<map<string, real>>, level: real, rebalance: string)
    returns (values: array<real>)
    requires weights.None? ==> |AssetColumns(columns)| > 0
    requires PriceTable(prices, dates, |AssetColumns(columns)|)
    ensures values.Length == |prices|
    ensures var w := NormalizeWeights(RawWeights(AssetColumns(columns), weights));
            forall i :: 0 <= i < values.Length ==>
              values[i] == IndexValue(prices, dates, EffectiveDates(dates, rebalance), w, Units(level, w, prices[0]), level, i)
  {
    var assets := AssetColumns(columns);
    var w := NormalizeWeights(RawWeights(assets, weights));
    var units := Units(level, w, prices[0]);
    values := new real[|prices|];
    if rebalance == "none" {
      HoldUnits(prices, dates, w, units, level, values);
    } else {
      var reb := RebalanceDates(dates, rebalance);
      HoldAndRebalance(prices, dates, reb, w, units, level, values);
    }
  }

  /** The `"none"` branch: the first day is the level, every later day the initial units' worth. */
  method HoldUnits(prices: seq<seq<real>>, dates: seq<Date>, w: seq<real>, units: seq<real>, level: real,
                   values: array<real>)
    requires PriceTable(prices, dates, |w|) && |units| == |w| && values.Length == |prices|
    modifies values
    ensures forall i :: 0 <= i < values.Length ==> values[i] == IndexValue(prices, dates, {}, w, units, level, i)
  {
    values[0] := level;
    for i := 1 to values.Length
      invariant forall k :: 0 <= k < i ==> values[k] == IndexValue(prices, dates, {}, w, units, level, k)
    {
      BuyAndHold(prices, dates, {}, w, units, i - 1);
      values[i] := Dot(units, prices[i]);
    }
  }

  /** The rebalancing branch: on each rebalance date the day's value is reinvested at the target weights. */
  method HoldAndRebalance(prices: seq<seq<real>>, dates: seq<Date>, reb: set<Date>, w: seq<real>, u0: seq<real>,
                          level: real, values: array<real>)
    requires PriceTable(prices, dates, |w|) && |u0| == |w| && values.Length == |prices|
    modifies values
    ensures forall i :: 0 <= i < values.Length ==> values[i] == IndexValue(prices, dates, reb, w, u0, level, i)
  {
    var units := u0;
    values[0] := level;
    for i := 1 to values.Length
      invariant units == UnitsAfter(prices, dates, reb, w, u0, i - 1)
      invariant forall k :: 0 <= k < i ==> values[k] == IndexValue(prices, dates, reb, w, u0, level, k)
    {
      values[i] := Dot(units, prices[i]);
      if dates[i] in reb {
        var portfolioValue := values[i];
        units := Units(portfolioValue, w, prices[i]);
      }
    }
  }

  /** Without rebalance dates the units never change: buy-and-hold. */
  lemma {:induction false} BuyAndHold(prices: seq<seq<real>>, dates: seq<Date>, reb: set<Date>, w: seq<real>, u0: seq<real>, k: nat)
    requires PriceTable(prices, dates, |w|) && |u0| == |w| && k < |prices|
    requires forall i :: 0 < i <= k ==> dates[i] !in reb
    ensures UnitsAfter(prices, dates, reb, w, u0, k) == u0
  {
    if k > 0 {
      BuyAndHold(prices, dates, reb, w, u0, k - 1);
    }
  }

  /** With rebalance `"none"`, every later value is the initial units valued at that day's prices. */
  lemma NoneIsBuyAndHold(prices: seq<seq<real>>, dates: seq<Date>, w: seq<real>, u0: seq<real>, level: real, i: nat)
    requires PriceTable(prices, dates, |w|) && |u0| == |w| && 0 < i < |prices|
    ensures IndexValue(prices, dates, EffectiveDates(dates, "none"), w, u0, level, i) == Dot(u0, prices[i])
  {
    BuyAndHold(prices, dates, {}, w, u0, i - 1);
  }

  /** An unknown frequency rebalances on no date, exactly like `"none"`. */
  lemma UnknownFrequencyNeverRebalances(dates: seq<Date>, freq: string)
    requires freq !in {"none", "daily", "weekly", "monthly"}
    ensures EffectiveDates(dates, freq) == {}
  {
  }

  /** With weights summing to 1, the initial units are worth exactly the initial level on the first day. */
  lemma InitialUnitsWorthLevel(prices: seq<seq<real>>, dates: seq<Date>, w: seq<real>, level: real)
    requires PriceTable(prices, dates, |w|) && Sum(w) == 1.0
    ensures Dot(Units(level, w, prices[0]), prices[0]) == level
  {
    ReinvestedWorth(level, w, prices[0]);
  }

  lemma TimesOne(v: real, s: real, x: real)
    requires s == 1.0 && x == v * s
    ensures x == v
  {
  }

  /**
   * Rebalancing on day `k` keeps that day's value: the new units, valued at the day's prices,
   * are worth the value just recorded for the day.
   */
  lemma RebalanceKeepsValue(prices: seq<seq<real>>, dates: seq<Date>, reb: set<Date>, w: seq<real>, u0: seq<real>,
                            level: real, k: nat)
    requires PriceTable(prices, dates, |w|) && |u0| == |w| && 0 < k < |prices|
    requires Sum(w) == 1.0 && dates[k] in reb
    ensures Dot(UnitsAfter(prices, dates, reb, w, u0, k), prices[k]) == IndexValue(prices, dates, reb, w, u0, level, k)
  {
    var held := UnitsAfter(prices, dates, reb, w, u0, k - 1);
    var v := Dot(held, prices[k]);
    assert IndexValue(prices, dates, reb, w, u0, level, k) == v;
    assert UnitsAfter(prices, dates, reb, w, u0, k) == Units(v, w, prices[k]);
    ReinvestedWorth(v, w, prices[k]);
  }

  /** Units that reinvest `v` at prices `p` with weights summing to 1 are worth `v` at `p`. */
  lemma ReinvestedWorth(v: real, w: seq<real>, p: seq<real>)
    requires |w| == |p| && NonZero(p) && Sum(w) == 1.0
    ensures Dot(Units(v, w, p), p) == v
  {
    UnitsWorth(v, w, p);
    TimesOne(v, Sum(w), Dot(Units(v, w, p), p));
  }

  // ---------------------------------------------------------------------------------------
  // Rebalance dates

  /** `_get_rebalance_dates`, stated as sets. */
  function RebalanceSpec(dates: seq<Date>, freq: string): set<Date> {
    if freq == "daily" then set d | d in dates
    else if freq == "weekly" then set d | d in dates && d.weekday == 0
    else if freq == "monthly" then set i | 1 <= i < |dates| && MonthChange(dates, i) :: dates[i]
    else {}
  }

  /** Date `i` falls in another month than the date before it. */
  predicate MonthChange(dates: seq<Date>, i: nat)
    requires 1 <= i < |dates|
  {
    dates[i].month != dates[i - 1].month
  }

  /** `_get_rebalance_dates`: one pass over the dates, remembering the previous date's month. */
  method RebalanceDates(dates: seq<Date>, freq: string) returns (result: set<Date>)
    ensures result == RebalanceSpec(dates, freq)
  {
    if freq == "daily" {
      return set d | d in dates;
    }
    result := {};
    if freq == "weekly" {
      for i := 0 to |dates|
        invariant result == set d | d in dates[..i] && d.weekday == 0
      {
        if dates[i].weekday == 0 {
          result := result + {dates[i]};
        }
        assert dates[..i + 1] == dates[..i] + [dates[i]];
      }
      assert dates[..|dates|] == dates;
    } else if freq == "monthly" {
      var prevMonth: Option<int> := None;
      for i := 0 to |dates|
        invariant prevMonth == if i == 0 then None else Some(dates[i - 1].month)
        invariant result == set k | 1 <= k < i && MonthChange(dates, k) :: dates[k]
      {
        if prevMonth.Some? && dates[i].month != prevMonth.value {
          result := result + {dates[i]};
        }
        prevMonth := Some(dates[i].month);
      }
    }
  }

  /** Daily rebalancing uses every date; weekly exactly the Mondays. */
  lemma DailyAndWeekly(dates: seq<Date>, d: Date)
    ensures d in RebalanceSpec(dates, "daily") <==> d in dates
    ensures d in RebalanceSpec(dates, "weekly") <==> d in dates && d.weekday == 0
  {
  }

  /** With distinct dates, the first date is never a monthly rebalance date. */
  lemma MonthlySkipsFirst(dates: seq<Date>)
    requires |dates| > 0 && Distinct(dates)
    ensures dates[0] !in RebalanceSpec(dates, "monthly")
  {
    assert forall i :: 1 <= i < |dates| ==> dates[i] != dates[0];
  }

  /** A date is a monthly rebalance date iff it starts a new month relative to the date before it. */
  lemma MonthlyIsMonthChange(dates: seq<Date>, i: nat)
    requires 1 <= i < |dates| && Distinct(dates)
    ensures dates[i] in RebalanceSpec(dates, "monthly") <==> dates[i].month != dates[i - 1].month
  {
    if dates[i] in RebalanceSpec(dates, "monthly") {
      var k :| 1 <= k < |dates| && MonthChange(dates, k) && dates[k] == dates[i];
      assert k == i;
    }
  }
}
