/**
 * The Value-at-Risk histogram: simulated returns counted into equal-width bins, the Monte Carlo
 * and Cholesky histograms merged bin by bin, and the bin nearest each VaR figure picked for the
 * reference lines.
 */
module VarHistogram {
  import opened Util

  /** One bar: the bin's centre and the number of values that fell into it. */
  datatype Bin = Bin(bin: real, count: nat)

  /** The number of bins when none is given. */
  const DefaultBinCount: nat := 60

  /** `Math.min(...data)`. */
  function SeqMin(s: seq<real>): (m: real)
    requires |s| > 0
    ensures m in s && forall x :: x in s ==> m <= x
  {
    if |s| == 1 then s[0]
    else
      var rest := SeqMin(s[1..]);
      assert forall x :: x in s ==> x == s[0] || x in s[1..];
      if s[0] < rest then s[0] else rest
  }

  /** `Math.max(...data)`. */
  function SeqMax(s: seq<real>): (m: real)
    requires |s| > 0
    ensures m in s && forall x :: x in s ==> x <= m
  {
    if |s| == 1 then s[0]
    else
      var rest := SeqMax(s[1..]);
      assert forall x :: x in s ==> x == s[0] || x in s[1..];
      if s[0] > rest then s[0] else rest
  }

  /** The bin of value `v`: `Math.min(Math.floor((v - lo) / step), n - 1)`. */
  function BinIndex(v: real, lo: real, step: real, n: nat): int
    requires step != 0.0
  {
    MinInt(((v - lo) / step).Floor, n - 1)
  }

  /** A value at or above the minimum falls into one of the `n` bins. */
  lemma BinIndexInRange(v: real, lo: real, step: real, n: nat)
    requires lo <= v && step > 0.0 && n >= 1
    ensures 0 <= BinIndex(v, lo, step, n) < n
  {
    assert (v - lo) / step >= 0.0;
  }

  /** An unclamped bin index `i` means `lo + step * i <= v < lo + step * (i + 1)`. */
  lemma BinBounds(v: real, lo: real, step: real, n: nat)
    requires lo <= v && step > 0.0 && n >= 1
    requires BinIndex(v, lo, step, n) < n - 1
    ensures var i := BinIndex(v, lo, step, n) as real;
            lo + step * i <= v < lo + step * (i + 1.0)
  {
    var q := (v - lo) / step;
    var i := BinIndex(v, lo, step, n) as real;
    assert i == q.Floor as real;
    ScaleBounds(q, i, step, v - lo);
  }

  lemma ScaleBounds(q: real, i: real, step: real, d: real)
    requires step > 0.0 && q == d / step && i <= q < i + 1.0
    ensures step * i <= d < step * (i + 1.0)
  {
    assert d == step * q;
    MultiplyMonotone(step, i, q);
    MultiplyMonotone(step, q, i + 1.0);
  }

  lemma MultiplyMonotone(c: real, x: real, y: real)
    requires c > 0.0 && x <= y
    ensures c * x <= c * y
    ensures x < y ==> c * x < c * y
  {
    var gap := y - x;
    assert c * y == c * x + c * gap;
  }

  /** The maximum lands in the last bin: its raw index is exactly `n`, which is clamped. */
  lemma MaxInLastBin(lo: real, hi: real, n: nat)
    requires lo < hi && n >= 1
    ensures BinIndex(hi, lo, (hi - lo) / n as real, n) == n - 1
  {
    var step := (hi - lo) / n as real;
    assert (hi - lo) / step == n as real by {
      QuotientCancels(n as real, hi - lo);
    }
  }

  /** The bin width of a non-degenerate range is positive. */
  lemma PositiveStep(lo: real, hi: real, n: nat)
    requires lo < hi && n >= 1
    ensures (hi - lo) / n as real > 0.0
  {
  }

  /** The centre of bin `i`: `lo + step * (i + 0.5)` (display rounding left out). */
  function Centre(lo: real, step: real, i: nat): real {
    lo + step * (i as real + 0.5)
  }

  /** How many values of `d` fall into bin `j`. */
  function Tally(d: seq<real>, lo: real, step: real, n: nat, j: int): nat
    requires step != 0.0
  {
    if d == [] then 0
    else Tally(d[..|d| - 1], lo, step, n, j) + (if BinIndex(d[|d| - 1], lo, step, n) == j then 1 else 0)
  }

  /** `n` bins from `lo` in steps of `step`, each with its centre and its tally of `d`. */
  function Bins(d: seq<real>, lo: real, step: real, n: nat): (bins: seq<Bin>)
    requires step != 0.0
    ensures |bins| == n
    ensures forall i :: 0 <= i < n ==> bins[i].bin == Centre(lo, step, i) && bins[i].count == Tally(d, lo, step, n, i)
  {
    seq(n, i requires 0 <= i < n => Bin(Centre(lo, step, i), Tally(d, lo, step, n, i)))
  }

  /** `buildBins`: no bins for no data; otherwise `n` bins spanning the data with their tallies. */
  function Histogram(data: seq<real>, n: nat): (bins: seq<Bin>)
    requires |data| > 0 ==> n >= 1 && SeqMin(data) < SeqMax(data)
    ensures |data| == 0 ==> bins == []
    ensures |data| > 0 ==> |bins| == n
  {
    if |data| == 0 then []
    else
      var lo, hi := SeqMin(data), SeqMax(data);
      PositiveStep(lo, hi, n);
      Bins(data, lo, (hi - lo) / n as real, n)
  }

  /** `buildBins`, counting into the bins in place one value at a time. */
  method BuildBins(data: seq<real>, n: nat) returns (bins: seq<Bin>)
    requires n >= 1
    requires |data| > 0 ==> SeqMin(data) < SeqMax(data)
    ensures bins == Histogram(data, n)
  {
    if |data| == 0 {
      return [];
    }
    var lo, hi := SeqMin(data), SeqMax(data);
    PositiveStep(lo, hi, n);
    var step := (hi - lo) / n as real;
    var counts := CountValues(data, lo, step, n);
    bins := seq(n, i requires 0 <= i < n reads counts => Bin(Centre(lo, step, i), counts[i]));
    ghost var s := HistogramIsBins(data, n);
    assert bins == Bins(data, lo, step, n);
  }

  /** The counting loop: one increment of the value's bin per value. */
  method CountValues(data: seq<real>, lo: real, step: real, n: nat) returns (counts: array<nat>)
    requires step > 0.0 && n >= 1
    requires forall x :: x in data ==> lo <= x
    ensures fresh(counts) && counts.Length == n
    ensures forall j :: 0 <= j < n ==> counts[j] == Tally(data, lo, step, n, j)
  {
    counts := new nat[n](_ => 0);
    for k := 0 to |data|
      invariant forall j :: 0 <= j < n ==> counts[j] == Tally(data[..k], lo, step, n, j)
    {
      assert data[k] in data;
      BinIndexInRange(data[k], lo, step, n);
      var idx := BinIndex(data[k], lo, step, n);
      TallyStep(data, k, lo, step, n);
      counts[idx] := counts[idx] + 1;
    }
    assert data[..|data|] == data;
  }

  /** Taking one more value adds one to its own bin's tally and nothing to the others. */
  lemma TallyStep(data: seq<real>, k: nat, lo: real, step: real, n: nat)
    requires step != 0.0 && k < |data|
    ensures forall j :: Tally(data[..k + 1], lo, step, n, j) ==
                        Tally(data[..k], lo, step, n, j) + (if BinIndex(data[k], lo, step, n) == j then 1 else 0)
  {
    assert data[..k + 1][..k] == data[..k];
  }

  /** The counts of the first `m` bins added up. */
  function TotalCount(bins: seq<Bin>): nat {
    if bins == [] then 0 else TotalCount(bins[..|bins| - 1]) + bins[|bins| - 1].count
  }

  /** The tallies of bins `0 .. m - 1` added up. */
  function TallyUpTo(d: seq<real>, lo: real, step: real, n: nat, m: nat): nat
    requires step != 0.0
  {
    if m == 0 then 0 else TallyUpTo(d, lo, step, n, m - 1) + Tally(d, lo, step, n, m - 1)
  }

  /** One more value adds one to the bins below `m` iff its bin is below `m`. */
  lemma {:induction false} TallyUpToSnoc(d: seq<real>, v: real, lo: real, step: real, n: nat, m: nat)
    requires step != 0.0
    ensures TallyUpTo(d + [v], lo, step, n, m) ==
            TallyUpTo(d, lo, step, n, m) + (if 0 <= BinIndex(v, lo, step, n) < m then 1 else 0)
  {
    if m > 0 {
      TallyUpToSnoc(d, v, lo, step, n, m - 1);
      assert (d + [v])[..|d + [v]| - 1] == d;
    }
  }

  /** When every value has a bin, the tallies of all bins add up to the number of values. */
  lemma {:induction false} TallyAll(d: seq<real>, lo: real, step: real, n: nat)
    requires step != 0.0
    requires forall i :: 0 <= i < |d| ==> 0 <= BinIndex(d[i], lo, step, n) < n
    ensures TallyUpTo(d, lo, step, n, n) == |d|
  {
    if d != [] {
      var init, last := d[..|d| - 1], d[|d| - 1];
      assert forall i :: 0 <= i < |init| ==> init[i] == d[i];
      TallyAll(init, lo, step, n);
      assert init + [last] == d;
      assert 0 <= BinIndex(last, lo, step, n) < n;
      TallyUpToSnoc(init, last, lo, step, n, n);
    } else {
      NoTallies(lo, step, n, n);
    }
  }

  lemma {:induction false} NoTallies(lo: real, step: real, n: nat, m: nat)
    requires step != 0.0
    ensures TallyUpTo([], lo, step, n, m) == 0
  {
    if m > 0 {
      NoTallies(lo, step, n, m - 1);
    }
  }

  lemma {:induction false} TotalCountIsTally(bins: seq<Bin>, d: seq<real>, lo: real, step: real, n: nat, m: nat)
    requires step != 0.0 && m <= |bins|
    requires forall i :: 0 <= i < |bins| ==> bins[i].count == Tally(d, lo, step, n, i)
    ensures TotalCount(bins[..m]) == TallyUpTo(d, lo, step, n, m)
  {
    if m > 0 {
      TotalCountIsTally(bins, d, lo, step, n, m - 1);
      assert bins[..m][..m - 1] == bins[..m - 1];
    }
  }

  /** Every value is counted in exactly one bin: the counts add up to the number of values. */
  lemma HistogramCountsEveryValue(data: seq<real>, n: nat)
    requires n >= 1 && |data| > 0 && SeqMin(data) < SeqMax(data)
    ensures TotalCount(Histogram(data, n)) == |data|
  {
    var step := HistogramIsBins(data, n);
    BinsCountEveryValue(data, SeqMin(data), step, n);
  }

  /** A non-empty histogram is the `n` bins from the minimum with a positive step. */
  lemma HistogramIsBins(data: seq<real>, n: nat) returns (step: real)
    requires n >= 1 && |data| > 0 && SeqMin(data) < SeqMax(data)
    ensures step > 0.0 && step == (SeqMax(data) - SeqMin(data)) / n as real
    ensures Histogram(data, n) == Bins(data, SeqMin(data), step, n)
  {
    PositiveStep(SeqMin(data), SeqMax(data), n);
    step := (SeqMax(data) - SeqMin(data)) / n as real;
  }

  /** Bins whose range starts at or below every value count each value once. */
  lemma BinsCountEveryValue(d: seq<real>, lo: real, step: real, n: nat)
    requires step > 0.0 && n >= 1
    requires forall x :: x in d ==> lo <= x
    ensures TotalCount(Bins(d, lo, step, n)) == |d|
  {
    var bins := Bins(d, lo, step, n);
    EveryValueHasBin(d, lo, step, n);
    TallyAll(d, lo, step, n);
    TotalCountIsTally(bins, d, lo, step, n, n);
    assert bins[..n] == bins;
  }

  lemma EveryValueHasBin(data: seq<real>, lo: real, step: real, n: nat)
    requires step > 0.0 && n >= 1
    requires forall x :: x in data ==> lo <= x
    ensures forall i :: 0 <= i < |data| ==> 0 <= BinIndex(data[i], lo, step, n) < n
  {
    forall i | 0 <= i < |data|
      ensures 0 <= BinIndex(data[i], lo, step, n) < n
    {
      assert data[i] in data;
      BinIndexInRange(data[i], lo, step, n);
    }
  }

  /** One merged row: the bin centre, the Monte Carlo count and the Cholesky count. */
  datatype MergedRow = MergedRow(bin: real, mc: nat, chol: nat)

  /** `merged`: one row per Monte Carlo bin, with the Cholesky count of the same position or 0. */
  function Merged(mcBins: seq<Bin>, cholBins: seq<Bin>): (rows: seq<MergedRow>)
    ensures |rows| == |mcBins|
    ensures forall i :: 0 <= i < |rows| ==> rows[i].bin == mcBins[i].bin && rows[i].mc == mcBins[i].count
    ensures forall i :: 0 <= i < |rows| ==> rows[i].chol == (if i < |cholBins| then cholBins[i].count else 0)
  {
    seq(|mcBins|, i requires 0 <= i < |mcBins| =>
      MergedRow(mcBins[i].bin, mcBins[i].count, if i < |cholBins| then cholBins[i].count else 0))
  }

  /**
   * The chart's rows: both sample sets binned with the default bin count, then merged by
   * position. An empty Cholesky sample leaves every Cholesky count at 0.
   */
  function ChartRows(mc: seq<real>, chol: seq<real>): (rows: seq<MergedRow>)
    requires |mc| > 0 ==> SeqMin(mc) < SeqMax(mc)
    requires |chol| > 0 ==> SeqMin(chol) < SeqMax(chol)
    ensures |mc| == 0 ==> rows == []
    ensures |mc| > 0 ==> |rows| == DefaultBinCount
    ensures |chol| == 0 ==> forall i :: 0 <= i < |rows| ==> rows[i].chol == 0
    ensures |chol| > 0 ==> forall i :: 0 <= i < |rows| ==> rows[i].chol == Histogram(chol, DefaultBinCount)[i].count
  {
    Merged(Histogram(mc, DefaultBinCount), Histogram(chol, DefaultBinCount))
  }

  /** The Monte Carlo counts of the rows added up. */
  function McTotal(rows: seq<MergedRow>): nat {
    if rows == [] then 0 else McTotal(rows[..|rows| - 1]) + rows[|rows| - 1].mc
  }

  /** The Cholesky counts of the rows added up. */
  function CholTotal(rows: seq<MergedRow>): nat {
    if rows == [] then 0 else CholTotal(rows[..|rows| - 1]) + rows[|rows| - 1].chol
  }

  /** Merging bins of equal number keeps each column's total. */
  lemma {:induction false} MergedTotals(mcBins: seq<Bin>, cholBins: seq<Bin>, m: nat)
    requires |mcBins| == |cholBins| && m <= |mcBins|
    ensures McTotal(Merged(mcBins, cholBins)[..m]) == TotalCount(mcBins[..m])
    ensures CholTotal(Merged(mcBins, cholBins)[..m]) == TotalCount(cholBins[..m])
  {
    if m > 0 {
      MergedTotals(mcBins, cholBins, m - 1);
      var rows := Merged(mcBins, cholBins);
      assert rows[..m][..m - 1] == rows[..m - 1];
      assert mcBins[..m][..m - 1] == mcBins[..m - 1];
      assert cholBins[..m][..m - 1] == cholBins[..m - 1];
    }
  }

  /** With both samples present, each column of the chart counts every sample exactly once. */
  lemma ChartRowsCountEverySample(mc: seq<real>, chol: seq<real>)
    requires |mc| > 0 && SeqMin(mc) < SeqMax(mc)
    requires |chol| > 0 && SeqMin(chol) < SeqMax(chol)
    ensures McTotal(ChartRows(mc, chol)) == |mc|
    ensures CholTotal(ChartRows(mc, chol)) == |chol|
  {
    var a, b := Histogram(mc, DefaultBinCount), Histogram(chol, DefaultBinCount);
    HistogramCountsEveryValue(mc, DefaultBinCount);
    HistogramCountsEveryValue(chol, DefaultBinCount);
    MergedTotals(a, b, |a|);
    assert a[..|a|] == a && b[..|b|] == b;
    assert Merged(a, b)[..|a|] == Merged(a, b);
  }

  /**
   * The `reduce` behind a reference line: the position of the bin whose centre is nearest to
   * `target`, a later bin replacing the current one only when strictly nearer.
   */
  function Nearest(bins: seq<Bin>, target: real): (i: nat)
    requires |bins| > 0
    ensures i < |bins|
    ensures forall j :: 0 <= j < |bins| ==> Abs(bins[i].bin - target) <= Abs(bins[j].bin - target)
    ensures forall j :: 0 <= j < i ==> Abs(bins[j].bin - target) > Abs(bins[i].bin - target)
  {
    if |bins| == 1 then 0
    else
      var p := Nearest(bins[..|bins| - 1], target);
      var last := |bins| - 1;
      if Abs(bins[last].bin - target) < Abs(bins[p].bin - target) then last else p
  }

  /** The x position of a reference line: the centre of the nearest bin. */
  function ReferenceX(bins: seq<Bin>, target: real): (x: real)
    requires |bins| > 0
    ensures exists i :: 0 <= i < |bins| && bins[i].bin == x
    ensures forall j :: 0 <= j < |bins| ==> Abs(x - target) <= Abs(bins[j].bin - target)
  {
    bins[Nearest(bins, target)].bin
  }
}
