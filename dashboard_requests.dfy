/**
 * The requests the dashboard derives from the loaded index data (a technical-indicator request
 * and a Value-at-Risk request) and the chart lines it builds from an indicator response.
 */
module DashboardRequests {
  import opened Util
  import opened Records
  import DashboardMetrics
  import opened Schemas
  import Indicators

  // ---------------------------------------------------------------------------------------
  // indicatorReq

  /** The slider-controlled parameters of the analytics tabs. */
  datatype Sliders = Sliders(smaWindow: real, rsiWindow: real, bbWindow: real, bbStd: real,
                             macdShort: real, macdLong: real, volWindow: real)

  /** The slider positions the page starts with. */
  const InitialSliders := Sliders(50.0, 14.0, 20.0, 2.0, 12.0, 26.0, 30.0)

  /** `paramsMap[tab] ?? {}`: the parameters the tab sends, read from the page's constant table. */
  function TabParams(tab: string, s: Sliders): Record<real> {
    match tab
    case "sma" => [("window", s.smaWindow)]
    case "rsi" => [("window", s.rsiWindow)]
    case "bollinger" => [("window", s.bbWindow), ("num_std", s.bbStd)]
    case "macd" => [("short_window", s.macdShort), ("long_window", s.macdLong)]
    case "volatility" => [("window", s.volWindow)]
    case _ => []
  }

  /** The parameter names each tab sends. */
  function ParamKeys(tab: string): seq<string> {
    if tab == "sma" || tab == "rsi" || tab == "volatility" then ["window"]
    else if tab == "bollinger" then ["window", "num_std"]
    else if tab == "macd" then ["short_window", "long_window"]
    else []
  }

  /**
   * `indicatorReq`: nothing without index values or dates, or on the VaR tab; otherwise a request
   * on the index series with the active tab's parameters (`paramsMap[tab] ?? {}`).
   */
  function IndicatorReq(data: Option<DashboardMetrics.IndexData>, tab: string, s: Sliders): (o: Option<IndicatorRequest>)
    ensures o.None? <==> data.None? || |data.value.indexValues| == 0 || |data.value.dates| == 0 || tab == "var"
    ensures o.Some? ==> o.value.asset == "Index" && o.value.indicator == tab
    ensures o.Some? ==> o.value.prices == data.value.indexValues && o.value.dates == data.value.dates
  {
    var prices := if data.Some? then data.value.indexValues else [];
    var dates := if data.Some? then data.value.dates else [];
    if |prices| == 0 || |dates| == 0 then None
    else if tab == "var" then None
    else Some(IndicatorRequest("Index", tab, prices, dates, TabParams(tab, s)))
  }

  /**
   * The parameters of a request carry exactly the tab's parameter names, each with the value of
   * its slider; an unknown tab sends none.
   */
  lemma RequestParams(data: Option<DashboardMetrics.IndexData>, tab: string, s: Sliders)
    requires IndicatorReq(data, tab, s).Some?
    ensures var ps := IndicatorReq(data, tab, s).value.params;
            Keys(ps) == ParamKeys(tab)
    ensures var ps := IndicatorReq(data, tab, s).value.params;
            && (tab == "sma" ==> Lookup(ps, "window") == Some(s.smaWindow))
            && (tab == "rsi" ==> Lookup(ps, "window") == Some(s.rsiWindow))
            && (tab == "volatility" ==> Lookup(ps, "window") == Some(s.volWindow))
            && (tab == "bollinger" ==> Lookup(ps, "window") == Some(s.bbWindow) && Lookup(ps, "num_std") == Some(s.bbStd))
            && (tab == "macd" ==> Lookup(ps, "short_window") == Some(s.macdShort) && Lookup(ps, "long_window") == Some(s.macdLong))
  {
    var ps := IndicatorReq(data, tab, s).value.params;
    if tab == "bollinger" {
      LookupPair("window", s.bbWindow, "num_std", s.bbStd);
    } else if tab == "macd" {
      LookupPair("short_window", s.macdShort, "long_window", s.macdLong);
    }
  }

  /** Looking up either key of a two-entry record. */
  lemma LookupPair(k1: string, v1: real, k2: string, v2: real)
    requires k1 != k2
    ensures Keys([(k1, v1), (k2, v2)]) == [k1, k2]
    ensures Lookup([(k1, v1), (k2, v2)], k1) == Some(v1)
    ensures Lookup([(k1, v1), (k2, v2)], k2) == Some(v2)
  {
    var r := [(k1, v1), (k2, v2)];
    assert r[1..] == [(k2, v2)];
    assert Keys(r[1..]) == [k2];
  }

  /** The tabs of the analytics panel. */
  const AnalyticsTabs: set<string> := {"sma", "rsi", "bollinger", "macd", "volatility", "var"}

  /** Every indicator request the panel sends names an indicator the API accepts. */
  lemma IndicatorReqAccepted(data: Option<DashboardMetrics.IndexData>, tab: string, s: Sliders)
    requires tab in AnalyticsTabs && IndicatorReq(data, tab, s).Some?
    ensures ValidIndicatorRequest(IndicatorReq(data, tab, s).value)
  {
  }

  /**
   * With the sliders where the page starts them, the API runs each indicator with exactly the
   * parameters it would use for a request without any.
   */
  lemma InitialSlidersAreApiDefaults(tab: string)
    requires tab in IndicatorNames
    ensures Indicators.Resolve(tab, TabParams(tab, InitialSliders)) == Indicators.Resolve(tab, [])
  {
    if tab == "bollinger" {
      LookupPair("window", 20.0, "num_std", 2.0);
    } else if tab == "macd" {
      LookupPair("short_window", 12.0, "long_window", 26.0);
    }
  }

  /** The page has no slider for the MACD signal window, so the API always uses its default of 9. */
  lemma MacdSignalAlwaysDefault(s: Sliders)
    ensures Indicators.Resolve("macd", TabParams("macd", s)).signalWindow == 9
  {
    LookupPair("short_window", s.macdShort, "long_window", s.macdLong);
  }

  // ---------------------------------------------------------------------------------------
  // varReq

  /**
   * One cell of the return matrix: the day-`i` simple return of a component, or 0 when the
   * component has no series or either of the two prices is missing or zero.
   */
  function Cell(p: Option<seq<real>>, i: nat): (c: real)
    requires i >= 1
    ensures p.None? || i >= |p.value| || p.value[i] == 0.0 || p.value[i - 1] == 0.0 ==> c == 0.0
    ensures p.Some? && i < |p.value| && p.value[i] != 0.0 && p.value[i - 1] != 0.0 ==>
              p.value[i - 1] + p.value[i - 1] * c == p.value[i]
  {
    match p
    case None => 0.0
    case Some(ps) =>
      if i >= |ps| || ps[i] == 0.0 || ps[i - 1] == 0.0 then 0.0
      else
        DashboardMetrics.Compound(ps[i - 1], ps[i]);
        (ps[i] - ps[i - 1]) / ps[i - 1]
  }

  /** `assets.map(...)`: the row of day `i`, one cell per asset in configuration order. */
  function Row(d: DashboardMetrics.IndexData, assets: seq<string>, i: nat): (row: seq<real>)
    requires i >= 1
    ensures |row| == |assets|
    ensures forall j :: 0 <= j < |assets| ==> row[j] == Cell(Lookup(d.componentPrices, assets[j]), i)
  {
    seq(|assets|, j requires 0 <= j < |assets| => Cell(Lookup(d.componentPrices, assets[j]), i))
  }

  /** The number of rows: one per date after the first. */
  function RowCount(n: nat): nat {
    if n >= 1 then n - 1 else 0
  }

  /** The rows the loop pushes: row `k` is the row of day `k + 1`. */
  function ReturnMatrix(d: DashboardMetrics.IndexData, assets: seq<string>): (m: seq<seq<real>>)
    ensures |m| == RowCount(|d.dates|)
  {
    seq(RowCount(|d.dates|), k requires 0 <= k < RowCount(|d.dates|) => Row(d, assets, k + 1))
  }

  /** `data.index_values[n - 1] ?? 1000`: the last index value, or 1000 when there is none at that position. */
  function PortfolioValue(d: DashboardMetrics.IndexData): (v: real)
    ensures 1 <= |d.dates| <= |d.indexValues| ==> v == d.indexValues[|d.dates| - 1]
    ensures !(1 <= |d.dates| <= |d.indexValues|) ==> v == 1000.0
  {
    var n := |d.dates|;
    if 1 <= n && n - 1 < |d.indexValues| then d.indexValues[n - 1] else 1000.0
  }

  /** `varReq`: nothing unless the VaR tab is open and data is loaded; otherwise the request built row by row. */
  method VarReq(tab: string, data: Option<DashboardMetrics.IndexData>, assets: seq<string>,
                numSim: int, confidence: real) returns (o: Option<VarRequest>)
    ensures o.None? <==> tab != "var" || data.None?
    ensures o.Some? ==> o.value == VarRequest(ReturnMatrix(data.value, assets), assets, numSim, confidence, PortfolioValue(data.value))
  {
    if tab != "var" || data.None? {
      return None;
    }
    var d := data.value;
    var n := |d.dates|;
    var allReturns: seq<seq<real>> := [];
    var i := 1;
    while i < n
      invariant 1 <= i <= if n >= 1 then n else 1
      invariant |allReturns| == i - 1
      invariant forall k :: 0 <= k < i - 1 ==> allReturns[k] == Row(d, assets, k + 1)
    {
      var row := Row(d, assets, i);
      allReturns := allReturns + [row];
      i := i + 1;
    }
    assert |allReturns| == RowCount(n);
    assert forall k :: 0 <= k < |allReturns| ==> allReturns[k] == ReturnMatrix(d, assets)[k];
    return Some(VarRequest(allReturns, assets, numSim, confidence, PortfolioValue(d)));
  }

  /**
   * The shape of the matrix: one row per date after the first, one column per configured asset
   * in configuration order, cell `(k, j)` the day-`k + 1` return of asset `j`.
   */
  lemma ReturnMatrixShape(d: DashboardMetrics.IndexData, assets: seq<string>, k: nat, j: nat)
    requires k < RowCount(|d.dates|) && j < |assets|
    ensures |ReturnMatrix(d, assets)[k]| == |assets|
    ensures ReturnMatrix(d, assets)[k][j] == Cell(Lookup(d.componentPrices, assets[j]), k + 1)
  {
  }

  /**
   * For a component whose prices are all non-zero and cover every date, its column of the VaR
   * matrix is the dashboard's return series of those prices.
   */
  lemma VarColumnIsReturns(d: DashboardMetrics.IndexData, assets: seq<string>, j: nat, p: seq<real>)
    requires j < |assets| && Lookup(d.componentPrices, assets[j]) == Some(p)
    requires |p| >= |d.dates| >= 1
    requires forall t :: 0 <= t < |p| ==> p[t] != 0.0
    ensures forall k :: 0 <= k < |d.dates| - 1 ==> ReturnMatrix(d, assets)[k][j] == DashboardMetrics.Returns(p)[k]
  {
    var r := DashboardMetrics.Returns(p);
    forall k | 0 <= k < |d.dates| - 1
      ensures ReturnMatrix(d, assets)[k][j] == r[k]
    {
      var c := ReturnMatrix(d, assets)[k][j];
      assert c == Cell(Some(p), k + 1);
      SameReturn(p[k], p[k + 1], c, r[k]);
    }
  }

  /** Two solutions of `a + a * x == b` with `a != 0` are equal. */
  lemma SameReturn(a: real, b: real, x: real, y: real)
    requires a != 0.0 && a + a * x == b && a + a * y == b
    ensures x == y
  {
    assert a * (x - y) == 0.0;
  }

  // ---------------------------------------------------------------------------------------
  // indicatorLines

  const FallbackColor := "#6B7280"

  /** `lineColors[key] ?? "#6B7280"`: the colour of an output key, the index colour a parameter. */
  function LineColor(key: string, indexColor: string): (c: string)
    ensures key in ["price", "rsi", "macd", "volatility"] ==> c == indexColor
    ensures key in ["sma", "signal"] ==> c == "#94A3B8"
    ensures key in ["upper", "lower"] ==> c == "#64748B"
    ensures key == "histogram" ==> c == "#475569"
    ensures key !in PaletteKeys ==> c == FallbackColor
  {
    match key
    case "price" => indexColor
    case "sma" => "#94A3B8"
    case "rsi" => indexColor
    case "upper" => "#64748B"
    case "lower" => "#64748B"
    case "macd" => indexColor
    case "signal" => "#94A3B8"
    case "histogram" => "#475569"
    case "volatility" => indexColor
    case _ => FallbackColor
  }

  /** The keys of the palette. */
  const PaletteKeys := ["price", "sma", "rsi", "upper", "lower", "macd", "signal", "histogram", "volatility"]

  /** `dates.map((d, i) => vals[i] != null ? { time: d, value: vals[i] } : null)`. */
  function Candidates(dates: seq<string>, vals: seq<Option<real>>): (c: seq<Option<DashboardMetrics.Point>>)
    ensures |c| == |dates|
  {
    seq(|dates|, i requires 0 <= i < |dates| =>
      if i < |vals| && vals[i].Some? then Some(DashboardMetrics.Point(dates[i], vals[i].value)) else None)
  }

  /** The points of one line: the candidates with the nulls filtered out. */
  function LinePoints(dates: seq<string>, vals: seq<Option<real>>): seq<DashboardMetrics.Point> {
    Somes(Candidates(dates, vals))
  }

  /** The points from date `i` on, kept one date at a time: the independent statement of `LinePoints`. */
  function KeptFrom(dates: seq<string>, vals: seq<Option<real>>, i: nat): seq<DashboardMetrics.Point>
    requires i <= |dates|
    decreases |dates| - i
  {
    if i == |dates| then []
    else
      (if i < |vals| && vals[i].Some? then [DashboardMetrics.Point(dates[i], vals[i].value)] else [])
        + KeptFrom(dates, vals, i + 1)
  }

  /** The points of a line are exactly the dates with a non-null value, paired with it, in date order. */
  lemma LinePointsKept(dates: seq<string>, vals: seq<Option<real>>)
    ensures LinePoints(dates, vals) == KeptFrom(dates, vals, 0)
  {
    SuffixKept(dates, vals, 0);
    assert Candidates(dates, vals)[0..] == Candidates(dates, vals);
  }

  lemma {:induction false} SuffixKept(dates: seq<string>, vals: seq<Option<real>>, i: nat)
    requires i <= |dates|
    ensures Somes(Candidates(dates, vals)[i..]) == KeptFrom(dates, vals, i)
    decreases |dates| - i
  {
    if i < |dates| {
      SuffixKept(dates, vals, i + 1);
      assert Candidates(dates, vals)[i..][1..] == Candidates(dates, vals)[i + 1..];
    }
  }

  /** A point is drawn iff its date carries a non-null value. */
  lemma LinePointMembers(dates: seq<string>, vals: seq<Option<real>>, p: DashboardMetrics.Point)
    ensures p in LinePoints(dates, vals) <==>
              exists i :: 0 <= i < |dates| && i < |vals| && dates[i] == p.time && vals[i] == Some(p.value)
  {
    var c := Candidates(dates, vals);
    if p in LinePoints(dates, vals) {
      assert Some(p) in c;
      var i :| 0 <= i < |c| && c[i] == Some(p);
      assert i < |vals| && dates[i] == p.time && vals[i] == Some(p.value);
    }
    if exists i :: 0 <= i < |dates| && i < |vals| && dates[i] == p.time && vals[i] == Some(p.value) {
      var i :| 0 <= i < |dates| && i < |vals| && dates[i] == p.time && vals[i] == Some(p.value);
      assert c[i] == Some(p);
    }
  }

  /** `indicatorLines`: one line per output key, in response order, named by the upper-cased key. */
  function IndicatorLines(resp: Option<Indicators.IndicatorResult>, indexColor: string): (lines: seq<DashboardMetrics.Series>)
    ensures resp.None? ==> lines == []
    ensures resp.Some? ==> |lines| == |resp.value.values|
    ensures resp.Some? ==> forall k :: 0 <= k < |lines| ==>
              var (key, vals) := resp.value.values[k];
              lines[k] == DashboardMetrics.Series(Upper(key), LinePoints(resp.value.dates, vals), LineColor(key, indexColor))
  {
    match resp
    case None => []
    case Some(r) =>
      seq(|r.values|, k requires 0 <= k < |r.values| =>
        DashboardMetrics.Series(Upper(r.values[k].0), LinePoints(r.dates, r.values[k].1), LineColor(r.values[k].0, indexColor)))
  }

  /** The chart shows one line per output key of the computed indicator, named by the upper-cased key. */
  lemma ComputedLines(req: IndicatorRequest, tech: Indicators.Technical, indexColor: string)
    requires |req.prices| == |req.dates|
    ensures var lines := IndicatorLines(Some(Indicators.Compute(req, tech)), indexColor);
            && |lines| == |Indicators.OutputKeys(req.indicator)|
            && forall k :: 0 <= k < |lines| ==> lines[k].name == Upper(Indicators.OutputKeys(req.indicator)[k])
  {
    Indicators.ComputeKeys(req, tech);
  }
}
