/**
 * The forecast error metrics every model reports: mean absolute error, root mean squared error
 * and mean absolute percentage error, the last with zero actual values divided by 1 instead.
 */
module Evaluation {
  import opened Util

  /** `np.abs(actual - predicted)`. */
  function AbsErrors(actual: seq<real>, predicted: seq<real>): (e: seq<real>)
    requires |actual| == |predicted|
    ensures |e| == |actual|
    ensures forall i :: 0 <= i < |e| ==> e[i] >= 0.0 && (e[i] == 0.0 <==> actual[i] == predicted[i])
  {
    seq(|actual|, i requires 0 <= i < |actual| => Abs(actual[i] - predicted[i]))
  }

  /** `(actual - predicted) ** 2`. */
  function SquaredErrors(actual: seq<real>, predicted: seq<real>): (e: seq<real>)
    requires |actual| == |predicted|
    ensures |e| == |actual|
    ensures forall i :: 0 <= i < |e| ==> e[i] >= 0.0 && (e[i] == 0.0 <==> actual[i] == predicted[i])
  {
    seq(|actual|, i requires 0 <= i < |actual| => Square(actual[i] - predicted[i]))
  }

  /** `x ** 2`: never negative, and zero only at zero. */
  function Square(x: real): (y: real)
    ensures y >= 0.0
    ensures y == 0.0 <==> x == 0.0
  {
    Product(x, x)
  }

  /** `a * b`, with the rule of signs the square needs. */
  function Product(a: real, b: real): (p: real)
    ensures a > 0.0 && b > 0.0 ==> p > 0.0
    ensures a < 0.0 && b < 0.0 ==> p > 0.0
    ensures a == 0.0 || b == 0.0 ==> p == 0.0
  {
    a * b
  }

  /** `np.where(actual == 0, 1, actual)`: never zero. */
  function Denominator(a: real): (d: real)
    ensures d != 0.0
    ensures a != 0.0 ==> d == a
  {
    if a == 0.0 then 1.0 else a
  }

  /** `np.abs((actual - predicted) / denominator)`. */
  function PercentageErrors(actual: seq<real>, predicted: seq<real>): (e: seq<real>)
    requires |actual| == |predicted|
    ensures |e| == |actual|
    ensures forall i :: 0 <= i < |e| ==> e[i] >= 0.0
  {
    seq(|actual|, i requires 0 <= i < |actual| => Abs((actual[i] - predicted[i]) / Denominator(actual[i])))
  }

  /** `evaluate`: the three metrics, keyed by name. */
  function Evaluate(actual: seq<real>, predicted: seq<real>, sqrt: real -> real): (m: map<string, real>)
    requires |actual| == |predicted| > 0
    ensures m.Keys == {"mae", "rmse", "mape"}
  {
    map["mae" := Mean(AbsErrors(actual, predicted)),
        "rmse" := sqrt(Mean(SquaredErrors(actual, predicted))),
        "mape" := Mean(PercentageErrors(actual, predicted))]
  }

  /** The mean of non-negative numbers is non-negative. */
  lemma MeanNonNegative(s: seq<real>)
    requires |s| > 0 && forall i :: 0 <= i < |s| ==> s[i] >= 0.0
    ensures Mean(s) >= 0.0
  {
    SumNonNegative(s);
  }

  /** The mean of zeros is zero. */
  lemma MeanOfZeros(s: seq<real>)
    requires |s| > 0 && forall i :: 0 <= i < |s| ==> s[i] == 0.0
    ensures Mean(s) == 0.0
  {
    SumConstant(s, 0.0);
  }

  /** MAE, RMSE and MAPE are never negative; RMSE squared is the mean squared error. */
  lemma MetricsNonNegative(actual: seq<real>, predicted: seq<real>, sqrt: real -> real)
    requires |actual| == |predicted| > 0 && IsSqrt(sqrt)
    ensures Evaluate(actual, predicted, sqrt)["mae"] >= 0.0
    ensures Evaluate(actual, predicted, sqrt)["mape"] >= 0.0
    ensures Evaluate(actual, predicted, sqrt)["rmse"] >= 0.0
    ensures var rmse := Evaluate(actual, predicted, sqrt)["rmse"];
            rmse * rmse == Mean(SquaredErrors(actual, predicted))
  {
    MeanNonNegative(AbsErrors(actual, predicted));
    MeanNonNegative(PercentageErrors(actual, predicted));
    MeanNonNegative(SquaredErrors(actual, predicted));
  }

  /** A perfect forecast scores 0 on every metric. */
  lemma PerfectForecast(actual: seq<real>, sqrt: real -> real)
    requires |actual| > 0 && IsSqrt(sqrt)
    ensures Evaluate(actual, actual, sqrt)["mae"] == 0.0
    ensures Evaluate(actual, actual, sqrt)["mape"] == 0.0
    ensures Evaluate(actual, actual, sqrt)["rmse"] == 0.0
  {
    MeanOfZeros(AbsErrors(actual, actual));
    MeanOfZeros(PercentageErrors(actual, actual));
    MeanOfZeros(SquaredErrors(actual, actual));
  }
}
