/** The percentage behind every `create_progress_bar`: the same expression appears
    in demo_simple.py, frontend.py and demo_interface.py. */
module Progress {

  /** `min((value / max_value) * 100, 100) if max_value > 0 else 0`. */
  function CappedPercentage(value: real, maxValue: real): (p: real)
    ensures p <= 100.0
    ensures maxValue <= 0.0 ==> p == 0.0
    ensures maxValue > 0.0 ==> (p == 100.0 <==> value >= maxValue)
    ensures maxValue > 0.0 ==> (p < 0.0 <==> value < 0.0)
    ensures maxValue > 0.0 && value <= maxValue ==> p * maxValue == value * 100.0
  {
    if maxValue > 0.0 then
      var raw := (value / maxValue) * 100.0;
      if raw < 100.0 then raw else 100.0
    else 0.0
  }

  /** A larger reading never gives a shorter bar. */
  lemma CappedPercentageMonotone(v1: real, v2: real, maxValue: real)
    requires v1 <= v2
    ensures CappedPercentage(v1, maxValue) <= CappedPercentage(v2, maxValue)
  {
    if maxValue > 0.0 {
      assert v1 / maxValue <= v2 / maxValue;
    }
  }

  /** For a non-negative reading the bar stays within [0, 100]; a negative reading
      gives a negative width, since nothing clamps from below. */
  lemma CappedPercentageRange(value: real, maxValue: real)
    ensures 0.0 <= value ==> 0.0 <= CappedPercentage(value, maxValue) <= 100.0
    ensures maxValue > 0.0 && value < 0.0 ==> CappedPercentage(value, maxValue) < 0.0
  {
  }
}
