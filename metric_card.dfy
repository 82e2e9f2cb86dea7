/**
 * The metric card: shows either a signed percentage change in green or red, or a plain value
 * with an optional suffix.
 */
module MetricCard {
  import opened Util

  /** A card is in change mode when a change is given and the value is empty. */
  predicate ChangeMode(value: string, change: Option<real>) {
    change.Some? && value == ""
  }

  /**
   * `displayValue`. The two-decimal rendering of the change is left abstract as `fixed2`.
   */
  function DisplayValue(value: string, change: Option<real>, suffix: Option<string>, fixed2: real -> string): (text: string)
    ensures ChangeMode(value, change) && change.value >= 0.0 ==> text == "+" + fixed2(change.value) + "%"
    ensures ChangeMode(value, change) && change.value < 0.0 ==> text == fixed2(change.value) + "%"
    ensures !ChangeMode(value, change) ==> text == value + suffix.GetOr("")
  {
    if ChangeMode(value, change) then
      (if change.value >= 0.0 then "+" else "") + fixed2(change.value) + "%"
    else value + suffix.GetOr("")
  }

  /** `valueColor`. */
  function ValueColor(value: string, change: Option<real>): (color: string)
    ensures ChangeMode(value, change) ==> (color == "text-emerald-400" <==> change.value >= 0.0)
    ensures ChangeMode(value, change) ==> (color == "text-red-400" <==> change.value < 0.0)
    ensures !ChangeMode(value, change) ==> color == "text-foreground"
  {
    if ChangeMode(value, change) then
      if change.value >= 0.0 then "text-emerald-400" else "text-red-400"
    else "text-foreground"
  }

  /** A non-empty value wins over any change: the card shows the value in the foreground colour. */
  lemma ValueOverridesChange(value: string, change: Option<real>, suffix: Option<string>, fixed2: real -> string)
    requires value != ""
    ensures DisplayValue(value, change, suffix, fixed2) == value + suffix.GetOr("")
    ensures ValueColor(value, change) == "text-foreground"
  {
  }

  /** The sign shown and the colour agree: a "+" prefix iff green. */
  lemma SignMatchesColour(change: real, fixed2: real -> string)
    ensures var text := DisplayValue("", Some(change), None, fixed2);
            (|text| > 0 && text[0] == '+' && ValueColor("", Some(change)) == "text-emerald-400") ||
            (ValueColor("", Some(change)) == "text-red-400" && text == fixed2(change) + "%")
  {
  }
}
