/**
 * The technical-indicator endpoint: it reads the indicator's parameters (with defaults),
 * calls the indicator computation and returns one nullable series per output key. The
 * computations themselves are opaque and passed in as functions.
 */
module Indicators {
  import opened Util
  import opened Records
  import opened Schemas

  /** A floating-point value as the indicator computations return it: NaN or a number. */
  datatype Float = NaN | Num(x: real)

  /** `_to_nullable_list`: NaN becomes null, every other value its number. */
  function ToNullableList(s: seq<Float>): (r: seq<Option<real>>)
    ensures |r| == |s|
    ensures forall i :: 0 <= i < |s| ==> (r[i].None? <==> s[i].NaN?)
    ensures forall i :: 0 <= i < |s| && s[i].Num? ==> r[i] == Some(s[i].x)
  {
    seq(|s|, i requires 0 <= i < |s| => if s[i].NaN? then None else Some(s[i].x))
  }

  /** The indicator computations, left abstract. */
  datatype Technical = Technical(
    sma: (seq<real>, int) -> seq<Float>,
    rsi: (seq<real>, int) -> seq<Float>,
    bollinger: (seq<real>, int, real) -> (seq<Float>, seq<Float>, seq<Float>),
    macd: (seq<real>, int, int, int) -> (seq<Float>, seq<Float>, seq<Float>),
    volatility: (seq<real>, int) -> seq<Float>)

  /** Rolling computations produce one value per price. */
  ghost predicate LengthPreserving(t: Technical) {
    && (forall p, w :: |t.sma(p, w)| == |p|)
    && (forall p, w :: |t.rsi(p, w)| == |p|)
    && (forall p, w, k :: |t.bollinger(p, w, k).0| == |p| && |t.bollinger(p, w, k).1| == |p| && |t.bollinger(p, w, k).2| == |p|)
    && (forall p, a, b, c :: |t.macd(p, a, b, c).0| == |p| && |t.macd(p, a, b, c).1| == |p| && |t.macd(p, a, b, c).2| == |p|)
    && (forall p, w :: |t.volatility(p, w)| == |p|)
  }

  /** `int(x)`: truncation toward zero. */
  function Trunc(x: real): (n: int)
    ensures x >= 0.0 ==> 0 <= n && n as real <= x < n as real + 1.0
    ensures x < 0.0 ==> n <= 0 && n as real - 1.0 < x <= n as real
  {
    if x >= 0.0 then x.Floor else -((-x).Floor)
  }

  /** Truncation leaves a whole number as it is. */
  lemma TruncWhole(n: int)
    ensures Trunc(n as real) == n
  {
  }

  /** `params.get(key, default)`. */
  function Param(params: Record<real>, key: string, default: real): real {
    Lookup(params, key).GetOr(default)
  }

  /** The computation an indicator request selects, with its parameters resolved. */
  datatype Call =
    | Sma(window: int)
    | Rsi(window: int)
    | Bollinger(window: int, numStd: real)
    | Macd(shortWindow: int, longWindow: int, signalWindow: int)
    | Volatility(window: int)
    | NoIndicator

  /** The parameter reading of `compute`: each window truncated, each missing parameter at its default. */
  function Resolve(indicator: string, params: Record<real>): (c: Call)
    ensures c.NoIndicator? <==> indicator !in IndicatorNames
    ensures indicator == "sma" ==> c == Sma(Trunc(Param(params, "window", 50.0)))
    ensures indicator == "rsi" ==> c == Rsi(Trunc(Param(params, "window", 14.0)))
    ensures indicator == "bollinger" ==> c == Bollinger(Trunc(Param(params, "window", 20.0)), Param(params, "num_std", 2.0))
    ensures indicator == "macd" ==>
              c == Macd(Trunc(Param(params, "short_window", 12.0)), Trunc(Param(params, "long_window", 26.0)),
                        Trunc(Param(params, "signal_window", 9.0)))
    ensures indicator == "volatility" ==> c == Volatility(Trunc(Param(params, "window", 30.0)))
  {
    match indicator
    case "sma" => Sma(Trunc(Param(params, "window", 50.0)))
    case "rsi" => Rsi(Trunc(Param(params, "window", 14.0)))
    case "bollinger" => Bollinger(Trunc(Param(params, "window", 20.0)), Param(params, "num_std", 2.0))
    case "macd" =>
      Macd(Trunc(Param(params, "short_window", 12.0)), Trunc(Param(params, "long_window", 26.0)),
           Trunc(Param(params, "signal_window", 9.0)))
    case "volatility" => Volatility(Trunc(Param(params, "window", 30.0)))
    case _ => NoIndicator
  }

  /** The parameters a request without `params` runs with. */
  lemma DefaultParameters(indicator: string)
    ensures indicator == "sma" ==> Resolve(indicator, []) == Sma(50)
    ensures indicator == "rsi" ==> Resolve(indicator, []) == Rsi(14)
    ensures indicator == "bollinger" ==> Resolve(indicator, []) == Bollinger(20, 2.0)
    ensures indicator == "macd" ==> Resolve(indicator, []) == Macd(12, 26, 9)
    ensures indicator == "volatility" ==> Resolve(indicator, []) == Volatility(30)
  {
  }

  /** The response: the dates and one nullable series per output key, in output order. */
  datatype IndicatorResult = IndicatorResult(dates: seq<string>, values: Record<seq<Option<real>>>)

  /** The output keys of each indicator, in the order the response lists them. */
  function OutputKeys(indicator: string): seq<string> {
    match indicator
    case "sma" => ["price", "sma"]
    case "rsi" => ["rsi"]
    case "bollinger" => ["price", "sma", "upper", "lower"]
    case "macd" => ["macd", "signal", "histogram"]
    case "volatility" => ["volatility"]
    case _ => []
  }

  /** The prices as a response series: every value present. */
  function PriceSeries(prices: seq<real>): (s: seq<Option<real>>)
    ensures |s| == |prices|
    ensures forall i :: 0 <= i < |prices| ==> s[i] == Some(prices[i])
  {
    seq(|prices|, i requires 0 <= i < |prices| => Some(prices[i]))
  }

  /** The response series of a resolved call. */
  function Outputs(call: Call, prices: seq<real>, tech: Technical): Record<seq<Option<real>>> {
    match call
    case Sma(w) => [("price", PriceSeries(prices)), ("sma", ToNullableList(tech.sma(prices, w)))]
    case Rsi(w) => [("rsi", ToNullableList(tech.rsi(prices, w)))]
    case Bollinger(w, k) =>
      var (mid, upper, lower) := tech.bollinger(prices, w, k);
      [("price", PriceSeries(prices)), ("sma", ToNullableList(mid)),
       ("upper", ToNullableList(upper)), ("lower", ToNullableList(lower))]
    case Macd(a, b, c) =>
      var (line, signal, histogram) := tech.macd(prices, a, b, c);
      [("macd", ToNullableList(line)), ("signal", ToNullableList(signal)), ("histogram", ToNullableList(histogram))]
    case Volatility(w) => [("volatility", ToNullableList(tech.volatility(prices, w)))]
    case NoIndicator => []
  }

  /**
   * `compute`: a known indicator echoes the request's dates with its output series; an unknown
   * one answers with no dates and no series. The prices and dates must pair up one to one.
   */
  function Compute(req: IndicatorRequest, tech: Technical): (r: IndicatorResult)
    requires |req.prices| == |req.dates|
    ensures req.indicator in IndicatorNames ==> r.dates == req.dates
    ensures req.indicator !in IndicatorNames ==> r == IndicatorResult([], [])
  {
    var call := Resolve(req.indicator, req.params);
    if call.NoIndicator? then IndicatorResult([], [])
    else IndicatorResult(req.dates, Outputs(call, req.prices, tech))
  }

  /** The response lists exactly the indicator's output keys, in order. */
  lemma ComputeKeys(req: IndicatorRequest, tech: Technical)
    requires |req.prices| == |req.dates|
    ensures Keys(Compute(req, tech).values) == OutputKeys(req.indicator)
  {
    var v := Compute(req, tech).values;
    if |v| > 0 {
      assert v[1..][0..] == v[1..];
    }
  }

  /** Where a `price` series is returned, it is the request's prices, none of them null. */
  lemma PriceVerbatim(req: IndicatorRequest, tech: Technical)
    requires |req.prices| == |req.dates|
    requires req.indicator in {"sma", "bollinger"}
    ensures |Compute(req, tech).values| > 0
    ensures Compute(req, tech).values[0] == ("price", PriceSeries(req.prices))
  {
  }

  /** With length-preserving computations every series has one entry per returned date. */
  lemma SeriesAligned(req: IndicatorRequest, tech: Technical)
    requires |req.prices| == |req.dates| && LengthPreserving(tech)
    ensures forall k :: 0 <= k < |Compute(req, tech).values| ==> |Compute(req, tech).values[k].1| == |Compute(req, tech).dates|
  {
  }

  /** The `sma` response: the prices, and the moving average over the resolved window. */
  lemma SmaSeries(req: IndicatorRequest, tech: Technical)
    requires |req.prices| == |req.dates|
    ensures req.indicator == "sma" ==>
              var w := Trunc(Param(req.params, "window", 50.0));
              Lookup(Compute(req, tech).values, "price") == Some(PriceSeries(req.prices)) &&
              Lookup(Compute(req, tech).values, "sma") == Some(ToNullableList(tech.sma(req.prices, w)))
  {
  }

  /** The `rsi` response: the relative strength index over the resolved window. */
  lemma RsiSeries(req: IndicatorRequest, tech: Technical)
    requires |req.prices| == |req.dates|
    ensures req.indicator == "rsi" ==>
              Lookup(Compute(req, tech).values, "rsi")
              == Some(ToNullableList(tech.rsi(req.prices, Trunc(Param(req.params, "window", 14.0)))))
  {
  }

  /** The `bollinger` response: the prices, then the middle, upper and lower bands of one band computation. */
  lemma BollingerSeries(req: IndicatorRequest, tech: Technical)
    requires |req.prices| == |req.dates|
    ensures req.indicator == "bollinger" ==>
              var bands := tech.bollinger(req.prices, Trunc(Param(req.params, "window", 20.0)), Param(req.params, "num_std", 2.0));
              Lookup(Compute(req, tech).values, "price") == Some(PriceSeries(req.prices)) &&
              Lookup(Compute(req, tech).values, "sma") == Some(ToNullableList(bands.0)) &&
              Lookup(Compute(req, tech).values, "upper") == Some(ToNullableList(bands.1)) &&
              Lookup(Compute(req, tech).values, "lower") == Some(ToNullableList(bands.2))
  {
    if req.indicator == "bollinger" {
      var bands := tech.bollinger(req.prices, Trunc(Param(req.params, "window", 20.0)), Param(req.params, "num_std", 2.0));
      var upper := ("upper", ToNullableList(bands.1));
      var lower := ("lower", ToNullableList(bands.2));
      var v := Compute(req, tech).values;
      assert v == [("price", PriceSeries(req.prices)), ("sma", ToNullableList(bands.0)), upper, lower];
      assert v[1..][1..] == [upper, lower] && [upper, lower][1..] == [lower];
      assert Lookup(v, "upper") == Lookup(v[1..], "upper") == Lookup([upper, lower], "upper");
      assert Lookup(v, "lower") == Lookup(v[1..], "lower") == Lookup([upper, lower], "lower") == Lookup([lower], "lower");
    }
  }

  /** The `macd` response: the line, signal and histogram of one MACD computation over the resolved windows. */
  lemma MacdSeries(req: IndicatorRequest, tech: Technical)
    requires |req.prices| == |req.dates|
    ensures req.indicator == "macd" ==>
              var m := tech.macd(req.prices, Trunc(Param(req.params, "short_window", 12.0)),
                                 Trunc(Param(req.params, "long_window", 26.0)), Trunc(Param(req.params, "signal_window", 9.0)));
              Lookup(Compute(req, tech).values, "macd") == Some(ToNullableList(m.0)) &&
              Lookup(Compute(req, tech).values, "signal") == Some(ToNullableList(m.1)) &&
              Lookup(Compute(req, tech).values, "histogram") == Some(ToNullableList(m.2))
  {
    if req.indicator == "macd" {
      var m := tech.macd(req.prices, Trunc(Param(req.params, "short_window", 12.0)),
                         Trunc(Param(req.params, "long_window", 26.0)), Trunc(Param(req.params, "signal_window", 9.0)));
      var signal := ("signal", ToNullableList(m.1));
      var histogram := ("histogram", ToNullableList(m.2));
      var v := Compute(req, tech).values;
      assert v == [("macd", ToNullableList(m.0)), signal, histogram];
      assert v[1..] == [signal, histogram] && [signal, histogram][1..] == [histogram];
      assert Lookup(v, "histogram") == Lookup([signal, histogram], "histogram") == Lookup([histogram], "histogram");
    }
  }

  /** The `volatility` response: the rolling volatility over the resolved window. */
  lemma VolatilitySeries(req: IndicatorRequest, tech: Technical)
    requires |req.prices| == |req.dates|
    ensures req.indicator == "volatility" ==>
              Lookup(Compute(req, tech).values, "volatility")
              == Some(ToNullableList(tech.volatility(req.prices, Trunc(Param(req.params, "window", 30.0)))))
  {
  }

  /** What a request without parameters computes: every indicator at its default windows. */
  lemma DefaultSeries(req: IndicatorRequest, tech: Technical)
    requires |req.prices| == |req.dates| && req.params == []
    ensures req.indicator == "sma" ==> Lookup(Compute(req, tech).values, "sma") == Some(ToNullableList(tech.sma(req.prices, 50)))
    ensures req.indicator == "rsi" ==> Lookup(Compute(req, tech).values, "rsi") == Some(ToNullableList(tech.rsi(req.prices, 14)))
    ensures req.indicator == "bollinger" ==>
              Lookup(Compute(req, tech).values, "upper") == Some(ToNullableList(tech.bollinger(req.prices, 20, 2.0).1))
    ensures req.indicator == "macd" ==>
              Lookup(Compute(req, tech).values, "macd") == Some(ToNullableList(tech.macd(req.prices, 12, 26, 9).0))
    ensures req.indicator == "volatility" ==>
              Lookup(Compute(req, tech).values, "volatility") == Some(ToNullableList(tech.volatility(req.prices, 30)))
  {
    DefaultParameters(req.indicator);
    SmaSeries(req, tech);
    RsiSeries(req, tech);
    BollingerSeries(req, tech);
    MacdSeries(req, tech);
    VolatilitySeries(req, tech);
  }
}
