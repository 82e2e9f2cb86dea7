/**
 * The forecast chart: the trailing actual prices followed by the forecast dates, the forecast
 * rows carrying the shown models' predictions, with a reference line at the last actual date.
 */
module ForecastChart {
  import opened Util
  import opened Records
  import opened Predictions
  import opened ModelComparison

  /** The forecast payload: trailing actuals, forecast dates and each model's predictions. */
  datatype ForecastData = ForecastData(trailingDates: seq<string>, trailingValues: seq<real>,
                                       dates: seq<string>, models: seq<Prediction>)

  /** `lastTrailingDate`: where the "Today" reference line is drawn. */
  function LastTrailingDate(f: ForecastData): (d: Option<string>)
    ensures |f.trailingDates| > 0 ==> d == Some(f.trailingDates[|f.trailingDates| - 1])
    ensures |f.trailingDates| == 0 ==> d == None
  {
    Last(f.trailingDates)
  }

  /** The trailing rows: each trailing date with its actual value and no model values. */
  function TrailingRows(f: ForecastData): (rows: seq<ChartRow>)
    ensures |rows| == |f.trailingDates|
    ensures forall i :: 0 <= i < |rows| ==> rows[i] == ChartRow(f.trailingDates[i], At(f.trailingValues, i), [])
  {
    seq(|f.trailingDates|, i requires 0 <= i < |f.trailingDates| => ChartRow(f.trailingDates[i], At(f.trailingValues, i), []))
  }

  /**
   * `data`: the trailing rows, then one row per forecast date. Only the first forecast row
   * carries an actual value, the last trailing one, joining the two parts of the line.
   */
  method ForecastRows(f: ForecastData, selected: seq<string>) returns (data: seq<ChartRow>)
    ensures |data| == |f.trailingDates| + |f.dates|
    ensures data[..|f.trailingDates|] == TrailingRows(f)
    ensures forall i :: 0 <= i < |f.dates| ==>
              data[|f.trailingDates| + i] ==
                ChartRow(f.dates[i], if i == 0 then Last(f.trailingValues) else None, ModelEntries(Active(f.models, selected), i))
  {
    var forecast := ForecastPart(f.dates, Last(f.trailingValues), Active(f.models, selected));
    data := TrailingRows(f) + forecast;
  }

  /** The forecast rows over a fixed list of shown models, joined to the actual line at row 0. */
  method ForecastPart(dates: seq<string>, joined: Option<real>, active: seq<Prediction>) returns (rows: seq<ChartRow>)
    ensures |rows| == |dates|
    ensures forall i :: 0 <= i < |dates| ==>
              rows[i] == ChartRow(dates[i], if i == 0 then joined else None, ModelEntries(active, i))
  {
    rows := [];
    for i := 0 to |dates|
      invariant |rows| == i
      invariant forall k :: 0 <= k < i ==> rows[k] == ChartRow(dates[k], if k == 0 then joined else None, ModelEntries(active, k))
    {
      var row := ModelRow(dates[i], if i == 0 then joined else None, active, i);
      rows := rows + [row];
      assert rows[i] == row;
    }
  }

  /** The reference line sits on the date of the last trailing row. */
  lemma ReferenceOnLastTrailingRow(f: ForecastData)
    requires |f.trailingDates| > 0
    ensures LastTrailingDate(f) == Some(TrailingRows(f)[|f.trailingDates| - 1].date)
  {
  }
}
