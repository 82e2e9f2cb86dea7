/**
 * The dashboard's performance chart and metric cards: the index and benchmark lines
 * normalised to start at 1, and the summary statistics of the index value series.
 */
module DashboardMetrics {
  import opened Util
  import opened Records

  /** One chart point `{ time, value }`. */
  datatype Point = Point(time: string, value: real)

  /** A named, coloured chart line. */
  datatype Series = Series(name: string, data: seq<Point>, color: string)

  /** The part of the index response the page reads. */
  datatype IndexData = IndexData(dates: seq<string>, indexValues: seq<real>, componentPrices: Record<seq<real>>)

  /** One benchmark's price history. */
  datatype PriceData = PriceData(dates: seq<string>, prices: seq<real>)

  /** An entry of the benchmark table: display name and line colour. */
  datatype Benchmark = Benchmark(name: string, color: string)

  // ---------------------------------------------------------------------------------------
  // indexSeries

  /** `values[0] || 1`: the first value, or 1 when it is missing or zero. */
  function Base(values: seq<real>): (b: real)
    ensures b != 0.0
    ensures |values| > 0 && values[0] != 0.0 ==> b == values[0]
    ensures !(|values| > 0 && values[0] != 0.0) ==> b == 1.0
  {
    if |values| > 0 && values[0] != 0.0 then values[0] else 1.0
  }

  /** `dates.map((d, i) => ({ time: d, value: values[i] / base }))`. */
  function Normalize(dates: seq<string>, values: seq<real>): (line: seq<Point>)
    requires |dates| <= |values|
    ensures |line| == |dates|
    ensures forall i :: 0 <= i < |dates| ==> line[i].time == dates[i] && line[i].value * Base(values) == values[i]
  {
    seq(|dates|, i requires 0 <= i < |dates| => Point(dates[i], values[i] / Base(values)))
  }

  /** A normalised line starts at exactly 1 when its first value is non-zero. */
  lemma NormalizedStartsAtOne(dates: seq<string>, values: seq<real>)
    requires |dates| <= |values| && |dates| > 0 && values[0] != 0.0
    ensures Normalize(dates, values)[0].value == 1.0
  {
    assert Normalize(dates, values)[0].value * values[0] == values[0];
  }

  /** Normalisation forgets the scale: multiplying every value by the same non-zero factor changes nothing. */
  lemma NormalizeScaleFree(dates: seq<string>, values: seq<real>, c: real)
    requires |dates| <= |values| && |values| > 0 && values[0] != 0.0 && c != 0.0
    ensures Normalize(dates, Map(values, (x: real) => c * x)) == Normalize(dates, values)
  {
    var scaled := Map(values, (x: real) => c * x);
    assert scaled[0] == c * values[0];
    forall i | 0 <= i < |dates|
      ensures Normalize(dates, scaled)[i] == Normalize(dates, values)[i]
    {
      CancelFactor(values[i], values[0], c);
    }
  }

  lemma CancelFactor(x: real, y: real, c: real)
    requires y != 0.0 && c != 0.0
    ensures (c * x) / (c * y) == x / y
  {
  }

  /** Every series is well formed: no more dates than values. */
  predicate Aligned(entries: Record<PriceData>) {
    forall i :: 0 <= i < |entries| ==> |entries[i].1.dates| <= |entries[i].1.prices|
  }

  /** The line for one benchmark entry, or nothing for an unknown ticker or an empty series. */
  function BenchmarkLine(entry: (string, PriceData), benchmarks: Record<Benchmark>): (o: Option<Series>)
    requires |entry.1.dates| <= |entry.1.prices|
    ensures o.Some? <==> Lookup(benchmarks, entry.0).Some? && |entry.1.prices| > 0
    ensures o.Some? ==> o.value.name == Lookup(benchmarks, entry.0).value.name
    ensures o.Some? ==> o.value.color == Lookup(benchmarks, entry.0).value.color
    ensures o.Some? ==> o.value.data == Normalize(entry.1.dates, entry.1.prices)
  {
    match Lookup(benchmarks, entry.0)
    case None => None
    case Some(bm) =>
      if |entry.1.prices| == 0 then None
      else Some(Series(bm.name, Normalize(entry.1.dates, entry.1.prices), bm.color))
  }

  /** The benchmark lines the loop has pushed after visiting `entries`. */
  function BenchmarkLines(entries: Record<PriceData>, benchmarks: Record<Benchmark>): (lines: seq<Series>)
    requires Aligned(entries)
    ensures |lines| <= |entries|
  {
    if entries == [] then []
    else
      var init := entries[..|entries| - 1];
      var last := entries[|entries| - 1];
      BenchmarkLines(init, benchmarks) + AsList(BenchmarkLine(last, benchmarks))
  }

  /** Every pushed benchmark line comes from a known ticker with a non-empty, normalised series. */
  lemma {:induction false} BenchmarkLinesKnown(entries: Record<PriceData>, benchmarks: Record<Benchmark>)
    requires Aligned(entries)
    ensures forall l :: l in BenchmarkLines(entries, benchmarks) ==>
              exists i :: 0 <= i < |entries| && BenchmarkLine(entries[i], benchmarks) == Some(l)
  {
    if entries != [] {
      var init := entries[..|entries| - 1];
      BenchmarkLinesKnown(init, benchmarks);
      forall l | l in BenchmarkLines(entries, benchmarks)
        ensures exists i :: 0 <= i < |entries| && BenchmarkLine(entries[i], benchmarks) == Some(l)
      {
        if l in BenchmarkLines(init, benchmarks) {
          var i :| 0 <= i < |init| && BenchmarkLine(init[i], benchmarks) == Some(l);
          assert entries[i] == init[i];
        } else {
          assert BenchmarkLine(entries[|entries| - 1], benchmarks) == Some(l);
        }
      }
    }
  }

  /** When every ticker is known and every series non-empty, there is one line per entry, in entry order. */
  lemma {:induction false} BenchmarkLinesAll(entries: Record<PriceData>, benchmarks: Record<Benchmark>)
    requires Aligned(entries)
    requires forall i :: 0 <= i < |entries| ==> Lookup(benchmarks, entries[i].0).Some? && |entries[i].1.prices| > 0
    ensures |BenchmarkLines(entries, benchmarks)| == |entries|
    ensures forall i :: 0 <= i < |entries| ==> Some(BenchmarkLines(entries, benchmarks)[i]) == BenchmarkLine(entries[i], benchmarks)
  {
    if entries != [] {
      var init := entries[..|entries| - 1];
      var last := entries[|entries| - 1];
      assert forall i :: 0 <= i < |init| ==> init[i] == entries[i];
      BenchmarkLinesAll(init, benchmarks);
      var line := BenchmarkLine(last, benchmarks);
      assert line.Some?;
      var lines := BenchmarkLines(entries, benchmarks);
      assert lines == BenchmarkLines(init, benchmarks) + [line.value];
      forall i | 0 <= i < |entries|
        ensures Some(lines[i]) == BenchmarkLine(entries[i], benchmarks)
      {
        if i < |init| {
          assert lines[i] == BenchmarkLines(init, benchmarks)[i];
        }
      }
    }
  }

  /** The line each benchmark entry would give, in entry order. */
  function BenchmarkCandidates(entries: Record<PriceData>, benchmarks: Record<Benchmark>): (c: seq<Option<Series>>)
    requires Aligned(entries)
    ensures |c| == |entries|
    ensures forall i :: 0 <= i < |entries| ==> c[i] == BenchmarkLine(entries[i], benchmarks)
  {
    seq(|entries|, i requires 0 <= i < |entries| => BenchmarkLine(entries[i], benchmarks))
  }

  /** The pushed lines are exactly the usable entries' lines, in entry order, whatever entries are unusable. */
  lemma {:induction false} BenchmarkLinesExact(entries: Record<PriceData>, benchmarks: Record<Benchmark>)
    requires Aligned(entries)
    ensures BenchmarkLines(entries, benchmarks) == Somes(BenchmarkCandidates(entries, benchmarks))
  {
    if entries != [] {
      var init := entries[..|entries| - 1];
      var o := BenchmarkLine(entries[|entries| - 1], benchmarks);
      BenchmarkLinesExact(init, benchmarks);
      BenchmarkCandidatesSnoc(entries, benchmarks);
      SomesAppend(BenchmarkCandidates(init, benchmarks), [o]);
      SomesSingle(o);
    }
  }

  lemma BenchmarkCandidatesSnoc(entries: Record<PriceData>, benchmarks: Record<Benchmark>)
    requires Aligned(entries) && entries != []
    ensures Aligned(entries[..|entries| - 1])
    ensures BenchmarkCandidates(entries, benchmarks)
            == BenchmarkCandidates(entries[..|entries| - 1], benchmarks) + [BenchmarkLine(entries[|entries| - 1], benchmarks)]
  {
  }

  lemma SomesSingle(o: Option<Series>)
    ensures Somes([o]) == AsList(o)
  {
    assert [o][1..] == [];
  }

  /** The list holding the line, if any. */
  function AsList(o: Option<Series>): seq<Series> {
    match o
    case Some(l) => [l]
    case None => []
  }

  lemma BenchmarkLinesSnoc(entries: Record<PriceData>, i: nat, benchmarks: Record<Benchmark>)
    requires Aligned(entries) && i < |entries|
    ensures Aligned(entries[..i]) && Aligned(entries[..i + 1])
    ensures BenchmarkLines(entries[..i + 1], benchmarks) == BenchmarkLines(entries[..i], benchmarks) + AsList(BenchmarkLine(entries[i], benchmarks))
  {
    assert entries[..i + 1][..i] == entries[..i];
    assert entries[..i + 1][i] == entries[i];
  }

  /** The lines `indexSeries` returns: the index line, then one line per usable benchmark. */
  function IndexSeriesOf(data: Option<IndexData>, benchmarkData: Option<Record<PriceData>>,
                         benchmarks: Record<Benchmark>, indexColor: string): (series: seq<Series>)
    requires data.Some? ==> |data.value.dates| <= |data.value.indexValues|
    requires benchmarkData.Some? ==> Aligned(benchmarkData.value)
    ensures data.None? <==> series == []
    ensures data.Some? ==> series[0] == Series("Index", Normalize(data.value.dates, data.value.indexValues), indexColor)
    ensures data.Some? && benchmarkData.None? ==> |series| == 1
    ensures data.Some? && benchmarkData.Some? ==> series[1..] == BenchmarkLines(benchmarkData.value, benchmarks)
  {
    match data
    case None => []
    case Some(d) =>
      [Series("Index", Normalize(d.dates, d.indexValues), indexColor)]
        + match benchmarkData case None => [] case Some(entries) => BenchmarkLines(entries, benchmarks)
  }

  /** `indexSeries`: the index line, then the benchmark lines pushed one entry at a time. */
  method IndexSeries(data: Option<IndexData>, benchmarkData: Option<Record<PriceData>>,
                     benchmarks: Record<Benchmark>, indexColor: string) returns (series: seq<Series>)
    requires data.Some? ==> |data.value.dates| <= |data.value.indexValues|
    requires benchmarkData.Some? ==> Aligned(benchmarkData.value)
    ensures series == IndexSeriesOf(data, benchmarkData, benchmarks, indexColor)
  {
    if data.None? {
      return [];
    }
    var d := data.value;
    var indexLine := Series("Index", Normalize(d.dates, d.indexValues), indexColor);
    series := [indexLine];
    if benchmarkData.Some? {
      var entries := benchmarkData.value;
      for i := 0 to |entries|
        invariant series == [indexLine] + BenchmarkLines(entries[..i], benchmarks)
      {
        var ticker, priceData := entries[i].0, entries[i].1;
        assert |priceData.dates| <= |priceData.prices|;
        BenchmarkLinesSnoc(entries, i, benchmarks);
        var bm := Lookup(benchmarks, ticker);
        if bm.None? || |priceData.prices| == 0 {
          assert BenchmarkLine(entries[i], benchmarks) == None;
          continue;
        }
        var line := Normalize(priceData.dates, priceData.prices);
        assert BenchmarkLine(entries[i], benchmarks) == Some(Series(bm.value.name, line, bm.value.color));
        series := series + [Series(bm.value.name, line, bm.value.color)];
      }
      assert entries[..|entries|] == entries;
    }
  }

  // ---------------------------------------------------------------------------------------
  // metrics

  /** `((current - prev) / prev) * 100`: a percentage change. */
  function Change(current: real, prev: real): (c: real)
    requires prev != 0.0
    ensures c * prev == (current - prev) * 100.0
  {
    ((current - prev) / prev) * 100.0
  }

  /** `vals.slice(1).map((v, i) => (v - vals[i]) / vals[i])`: the simple daily returns. */
  function Returns(vals: seq<real>): (r: seq<real>)
    requires |vals| > 0
    requires forall i :: 0 <= i < |vals| ==> vals[i] != 0.0
    ensures |r| == |vals| - 1
    ensures forall i :: 0 <= i < |r| ==> vals[i] + vals[i] * r[i] == vals[i + 1]
  {
    var r := seq(|vals| - 1, i requires 0 <= i < |vals| - 1 => (vals[i + 1] - vals[i]) / vals[i]);
    forall i | 0 <= i < |r|
      ensures vals[i] + vals[i] * r[i] == vals[i + 1]
    {
      Compound(vals[i], vals[i + 1]);
    }
    r
  }

  lemma Compound(a: real, b: real)
    requires a != 0.0
    ensures a + a * ((b - a) / a) == b
  {
  }

  /** `(x - m) ** 2` for every element. */
  function SquaredDeviations(xs: seq<real>, m: real): (d: seq<real>)
    ensures |d| == |xs|
  {
    seq(|xs|, i requires 0 <= i < |xs| => (xs[i] - m) * (xs[i] - m))
  }

  lemma NonNegativeProduct(a: real, b: real)
    requires a >= 0.0 && b >= 0.0
    ensures a * b >= 0.0
  {
  }

  lemma NonPositiveProduct(a: real, b: real)
    requires a <= 0.0 && b <= 0.0
    ensures a * b >= 0.0
  {
  }

  lemma ZeroProduct(a: real)
    requires a == 0.0
    ensures a * a == 0.0
  {
  }

  /** No squared deviation is negative, and the deviation of the mean itself is zero. */
  lemma DeviationSigns(xs: seq<real>, m: real)
    ensures forall i :: 0 <= i < |xs| ==> SquaredDeviations(xs, m)[i] >= 0.0
    ensures forall i :: 0 <= i < |xs| && xs[i] == m ==> SquaredDeviations(xs, m)[i] == 0.0
  {
    forall i | 0 <= i < |xs|
      ensures SquaredDeviations(xs, m)[i] >= 0.0
    {
      if xs[i] >= m {
        NonNegativeProduct(xs[i] - m, xs[i] - m);
      } else {
        NonPositiveProduct(xs[i] - m, xs[i] - m);
      }
    }
    forall i | 0 <= i < |xs| && xs[i] == m
      ensures SquaredDeviations(xs, m)[i] == 0.0
    {
      ZeroProduct(xs[i] - m);
    }
  }

  /** The population variance: the summed squared deviations divided by `xs.length`. */
  function Variance(xs: seq<real>): real
    requires |xs| > 0
  {
    Sum(SquaredDeviations(xs, Mean(xs))) / |xs| as real
  }

  /** The variance is never negative, and it is zero when every return equals the mean. */
  lemma VarianceBounds(xs: seq<real>)
    requires |xs| > 0
    ensures Variance(xs) >= 0.0
    ensures (forall i :: 0 <= i < |xs| ==> xs[i] == Mean(xs)) ==> Variance(xs) == 0.0
  {
    var d := SquaredDeviations(xs, Mean(xs));
    DeviationSigns(xs, Mean(xs));
    SumNonNegative(d);
    DivideByCount(Sum(d), |xs|);
  }

  lemma DivideByCount(s: real, n: nat)
    requires n > 0
    ensures s >= 0.0 ==> s / n as real >= 0.0
    ensures s / n as real == 0.0 <==> s == 0.0
  {
  }

  /** The running peak at position `i`: `if (v > peak) peak = v`, starting from `peak = vals[0]`. */
  function PeakAt(vals: seq<real>, i: nat): real
    requires i < |vals|
  {
    if i == 0 then vals[0]
    else
      var prior := PeakAt(vals, i - 1);
      if vals[i] > prior then vals[i] else prior
  }

  /** The running peak is the largest value seen so far, and is one of them. */
  lemma {:induction false} PeakIsMax(vals: seq<real>, i: nat) returns (j: nat)
    requires i < |vals|
    ensures j <= i && vals[j] == PeakAt(vals, i)
    ensures forall k :: 0 <= k <= i ==> vals[k] <= PeakAt(vals, i)
  {
    if i == 0 {
      j := 0;
    } else {
      j := PeakIsMax(vals, i - 1);
      if vals[i] > PeakAt(vals, i - 1) {
        j := i;
      }
    }
  }

  /** No running peak of `vals` is zero, as the drawdown divides by it. */
  predicate PeaksNonZero(vals: seq<real>) {
    forall i :: 0 <= i < |vals| ==> PeakAt(vals, i) != 0.0
  }

  /** `(v - peak) / peak` at position `i`. */
  function Drawdown(vals: seq<real>, i: nat): real
    requires i < |vals| && PeakAt(vals, i) != 0.0
  {
    (vals[i] - PeakAt(vals, i)) / PeakAt(vals, i)
  }

  /** `maxDrawdown` after the first `k` positions: 0, lowered to every smaller drawdown. */
  function MaxDrawdownUpTo(vals: seq<real>, k: nat): (m: real)
    requires k <= |vals| && PeaksNonZero(vals)
    ensures m <= 0.0
  {
    if k == 0 then 0.0
    else
      var prior := MaxDrawdownUpTo(vals, k - 1);
      var dd := Drawdown(vals, k - 1);
      if dd < prior then dd else prior
  }

  /** The result is the smallest of 0 and the drawdowns, and is one of them. */
  lemma {:induction false} MaxDrawdownIsMin(vals: seq<real>, k: nat) returns (j: int)
    requires k <= |vals| && PeaksNonZero(vals)
    ensures forall i :: 0 <= i < k ==> MaxDrawdownUpTo(vals, k) <= Drawdown(vals, i)
    ensures -1 <= j < k
    ensures j == -1 ==> MaxDrawdownUpTo(vals, k) == 0.0
    ensures j >= 0 ==> MaxDrawdownUpTo(vals, k) == Drawdown(vals, j)
  {
    if k == 0 {
      j := -1;
    } else {
      j := MaxDrawdownIsMin(vals, k - 1);
      if Drawdown(vals, k - 1) < MaxDrawdownUpTo(vals, k - 1) {
        j := k - 1;
      }
    }
  }

  /** The drawdown loop: `peak` tracks the running maximum and `maxDrawdown` the smallest drawdown seen. */
  method MaxDrawdown(vals: seq<real>) returns (maxDrawdown: real)
    requires |vals| > 0 && PeaksNonZero(vals)
    ensures maxDrawdown == MaxDrawdownUpTo(vals, |vals|)
  {
    var peak := vals[0];
    maxDrawdown := 0.0;
    for i := 0 to |vals|
      invariant peak == PeakAt(vals, if i == 0 then 0 else i - 1)
      invariant maxDrawdown == MaxDrawdownUpTo(vals, i)
    {
      var v := vals[i];
      if v > peak {
        peak := v;
      }
      assert peak == PeakAt(vals, i);
      var dd := (v - peak) / peak;
      if dd < maxDrawdown {
        maxDrawdown := dd;
      }
    }
  }

  /** With non-zero values no running peak is zero, since every peak is one of the values. */
  lemma NonZeroPeaks(vals: seq<real>)
    requires forall i :: 0 <= i < |vals| ==> vals[i] != 0.0
    ensures PeaksNonZero(vals)
  {
    forall i | 0 <= i < |vals|
      ensures PeakAt(vals, i) != 0.0
    {
      var j := PeakIsMax(vals, i);
    }
  }

  /** For positive values every drawdown, hence the largest, lies in (-1, 0]. */
  lemma DrawdownBounds(vals: seq<real>)
    requires |vals| > 0
    requires forall i :: 0 <= i < |vals| ==> vals[i] > 0.0
    ensures PeaksNonZero(vals)
    ensures -1.0 < MaxDrawdownUpTo(vals, |vals|) <= 0.0
  {
    NonZeroPeaks(vals);
    var i := MaxDrawdownIsMin(vals, |vals|);
    if i >= 0 {
      var j := PeakIsMax(vals, i);
      RelativeDrop(vals[i], PeakAt(vals, i));
    }
  }

  lemma RelativeDrop(v: real, p: real)
    requires v > 0.0 && p >= v
    ensures -1.0 < (v - p) / p <= 0.0
  {
  }

  /** The values of the metric cards, kept as exact numbers. */
  datatype Snapshot = Snapshot(
    current: real,
    change1d: real,
    change7d: real,
    change30d: real,
    volatility: real,
    totalReturn: real,
    maxDrawdown: real,
    sharpe: real)

  /** `riskFreeDaily = 0.05 / 365`. */
  const RiskFreeDaily: real := 0.05 / 365.0

  /** `stdDev > 0 ? (excessMean / stdDev) * sqrt(365) : 0`. */
  function Sharpe(mean: real, stdDev: real, sqrt365: real): real {
    if stdDev > 0.0 then ((mean - RiskFreeDaily) / stdDev) * sqrt365 else 0.0
  }

  /** The value the change is measured against: `days` back when the series is long enough, the first value otherwise. */
  function Prior(vals: seq<real>, days: nat): (p: real)
    requires |vals| >= 2
    ensures p in vals
  {
    if |vals| >= days + 1 then vals[|vals| - 1 - days] else vals[0]
  }

  /** The snapshot of a series with at least two non-zero values. */
  function SnapshotOf(vals: seq<real>, sqrt: real -> real): Snapshot
    requires |vals| >= 2
    requires forall i :: 0 <= i < |vals| ==> vals[i] != 0.0
  {
    var n := |vals|;
    var current := vals[n - 1];
    var rets := Returns(vals);
    var variance := Variance(rets);
    NonZeroPeaks(vals);
    Snapshot(
      current,
      Change(current, vals[n - 2]),
      Change(current, Prior(vals, 7)),
      Change(current, Prior(vals, 30)),
      sqrt(variance) * sqrt(365.0) * 100.0,
      Change(current, vals[0]),
      MaxDrawdownUpTo(vals, n) * 100.0,
      Sharpe(Mean(rets), sqrt(variance), sqrt(365.0)))
  }

  /**
   * `metrics`: null without data or with fewer than two values; otherwise the summary of the
   * index series, each change measured against the value 1, 7 or 30 days back when the series
   * is long enough and against the first value otherwise.
   */
  function Metrics(data: Option<IndexData>, sqrt: real -> real): (m: Option<Snapshot>)
    requires data.Some? ==> forall i :: 0 <= i < |data.value.indexValues| ==> data.value.indexValues[i] != 0.0
    ensures m.None? <==> data.None? || |data.value.indexValues| < 2
    ensures m.Some? ==> m.value == SnapshotOf(data.value.indexValues, sqrt)
  {
    if data.None? || |data.value.indexValues| < 2 then None
    else Some(SnapshotOf(data.value.indexValues, sqrt))
  }

  /**
   * The change cards of a series of `n >= 2` values: the current value is the last one, the
   * 1-day change is against the one before it, and the 7- and 30-day changes fall back to the
   * total return for series too short to reach back that far.
   */
  lemma ChangeCards(vals: seq<real>, sqrt: real -> real)
    requires |vals| >= 2
    requires forall i :: 0 <= i < |vals| ==> vals[i] != 0.0
    ensures var m := SnapshotOf(vals, sqrt);
            var n := |vals|;
            && m.current == vals[n - 1]
            && m.change1d == Change(vals[n - 1], vals[n - 2])
            && (n >= 8 ==> m.change7d == Change(vals[n - 1], vals[n - 8]))
            && (n < 8 ==> m.change7d == m.totalReturn)
            && (n >= 31 ==> m.change30d == Change(vals[n - 1], vals[n - 31]))
            && (n < 31 ==> m.change30d == m.totalReturn)
            && m.totalReturn == Change(vals[n - 1], vals[0])
  {
  }

  /** The drawdown card never shows a gain, and a Sharpe ratio is only reported for a positive deviation. */
  lemma RiskCards(vals: seq<real>, sqrt: real -> real)
    requires |vals| >= 2
    requires forall i :: 0 <= i < |vals| ==> vals[i] != 0.0
    ensures SnapshotOf(vals, sqrt).maxDrawdown <= 0.0
    ensures sqrt(Variance(Returns(vals))) <= 0.0 ==> SnapshotOf(vals, sqrt).sharpe == 0.0
  {
  }

  /** Returns that are all equal have zero variance. */
  lemma ConstantVariance(r: seq<real>)
    requires |r| > 0
    requires forall i :: 0 <= i < |r| ==> r[i] == r[0]
    ensures Variance(r) == 0.0
  {
    SumConstant(r, r[0]);
    MeanOfConstant(|r|, r[0]);
    VarianceBounds(r);
  }

  /** With zero variance the deviation is 0, so the Sharpe ratio is reported as 0. */
  lemma ZeroVarianceZeroSharpe(vals: seq<real>, sqrt: real -> real)
    requires IsSqrt(sqrt)
    requires |vals| >= 2
    requires forall i :: 0 <= i < |vals| ==> vals[i] != 0.0
    requires Variance(Returns(vals)) == 0.0
    ensures SnapshotOf(vals, sqrt).sharpe == 0.0
  {
  }

  /** A series that grows by the same rate every day has a Sharpe ratio of 0. */
  lemma ConstantReturnsZeroSharpe(vals: seq<real>, sqrt: real -> real)
    requires IsSqrt(sqrt)
    requires |vals| >= 2
    requires forall i :: 0 <= i < |vals| ==> vals[i] != 0.0
    requires forall i :: 0 <= i < |vals| - 1 ==> Returns(vals)[i] == Returns(vals)[0]
    ensures SnapshotOf(vals, sqrt).sharpe == 0.0
  {
    ConstantVariance(Returns(vals));
    ZeroVarianceZeroSharpe(vals, sqrt);
  }

  lemma MeanOfConstant(n: nat, c: real)
    requires n > 0
    ensures (n as real * c) / n as real == c
  {
  }

  /** With positive index values the Max Drawdown card lies in (-100, 0]. */
  lemma MaxDrawdownCardBounds(vals: seq<real>, sqrt: real -> real)
    requires |vals| >= 2
    requires forall i :: 0 <= i < |vals| ==> vals[i] > 0.0
    ensures -100.0 < SnapshotOf(vals, sqrt).maxDrawdown <= 0.0
  {
    DrawdownBounds(vals);
  }

  /** The series 100, 110, 99, 150: a 10% drawdown from the peak of 110 and a 50% total return. */
  lemma DrawdownExample(sqrt: real -> real)
    ensures var m := SnapshotOf([100.0, 110.0, 99.0, 150.0], sqrt);
            m.maxDrawdown == -10.0 && m.totalReturn == 50.0 && m.change7d == 50.0 && m.change30d == 50.0
  {
    var vals := [100.0, 110.0, 99.0, 150.0];
    NonZeroPeaks(vals);
    assert PeakAt(vals, 1) == 110.0;
    assert PeakAt(vals, 2) == 110.0;
    assert PeakAt(vals, 3) == 150.0;
    assert Drawdown(vals, 2) == -0.1;
    assert MaxDrawdownUpTo(vals, 2) == 0.0;
    assert MaxDrawdownUpTo(vals, 4) == -0.1;
  }
}
