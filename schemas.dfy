/**
 * The request bodies the API accepts, with their field defaults and the range and pattern
 * constraints the request validation enforces.
 */
module Schemas {
  import opened Util
  import opened Records

  /** The body of an index request. */
  datatype IndexConfig = IndexConfig(
    assets: seq<string>,
    weights: Option<map<string, real>>,
    startTime: string,
    endTime: string,
    initialLevel: real,
    rebalance: string)

  /** The alternatives of the `rebalance` pattern. */
  const RebalanceFrequencies: set<string> := {"none", "daily", "weekly", "monthly"}

  /**
   * An index request with every field left at its default: three assets, equal weights, the
   * default date range, level 1000 and no rebalancing.
   */
  function DefaultIndexConfig(): (c: IndexConfig)
    ensures c.assets == ["BTC-USD", "ETH-USD", "SOL-USD"] && c.weights.None?
    ensures c.startTime == "2021-01-03" && c.endTime == "2026-02-23"
    ensures c.initialLevel == 1000.0 && c.rebalance == "none"
    ensures ValidIndexConfig(c)
  {
    IndexConfig(["BTC-USD", "ETH-USD", "SOL-USD"], None, "2021-01-03", "2026-02-23", 1000.0, "none")
  }

  /** An index request is accepted iff its rebalance frequency matches the pattern. */
  predicate ValidIndexConfig(c: IndexConfig) {
    c.rebalance in RebalanceFrequencies
  }

  /** The body of an indicator request; `params` is a JSON object of numbers. */
  datatype IndicatorRequest = IndicatorRequest(asset: string, indicator: string, prices: seq<real>,
                                               dates: seq<string>, params: Record<real>)

  /** An indicator request with `asset` and `params` left at their defaults. */
  function DefaultIndicatorRequest(indicator: string, prices: seq<real>, dates: seq<string>): (r: IndicatorRequest)
    ensures r.asset == "Index" && r.params == []
    ensures r.indicator == indicator && r.prices == prices && r.dates == dates
  {
    IndicatorRequest("Index", indicator, prices, dates, [])
  }

  /** The alternatives of the `indicator` pattern. */
  const IndicatorNames: set<string> := {"sma", "rsi", "bollinger", "macd", "volatility"}

  /** An indicator request is accepted iff its indicator matches the pattern. */
  predicate ValidIndicatorRequest(r: IndicatorRequest) {
    r.indicator in IndicatorNames
  }

  /** The body of a VaR request. */
  datatype VarRequest = VarRequest(returnRows: seq<seq<real>>, assetNames: seq<string>, numSimulations: int,
                                   confidenceLevel: real, portfolioValue: real)

  /** A VaR request with the simulation count, confidence level and portfolio value at their defaults. */
  function DefaultVarRequest(returnRows: seq<seq<real>>, assetNames: seq<string>): (r: VarRequest)
    ensures r.numSimulations == 10000 && r.confidenceLevel == 0.95 && r.portfolioValue == 1000.0
    ensures r.returnRows == returnRows && r.assetNames == assetNames
  {
    VarRequest(returnRows, assetNames, 10000, 0.95, 1000.0)
  }

  /** A VaR request is accepted iff its simulation count and confidence level lie in their ranges. */
  predicate ValidVarRequest(r: VarRequest) {
    1000 <= r.numSimulations <= 50000 && 0.80 <= r.confidenceLevel <= 0.99
  }

  /** Every default passes its own constraint. */
  lemma DefaultsValid(returnRows: seq<seq<real>>, assetNames: seq<string>)
    ensures ValidIndexConfig(DefaultIndexConfig())
    ensures ValidVarRequest(DefaultVarRequest(returnRows, assetNames))
  {
  }

  /**
   * The dashboard's VaR sliders produce 1000 to 50000 simulations in steps of 1000 and a
   * confidence of 80 to 99 hundredths; every such pair is accepted.
   */
  lemma SliderValuesValid(returnRows: seq<seq<real>>, assetNames: seq<string>, steps: int, percent: int, value: real)
    requires 1 <= steps <= 50 && 80 <= percent <= 99
    ensures ValidVarRequest(VarRequest(returnRows, assetNames, 1000 * steps, percent as real / 100.0, value))
  {
  }
}
