/**
 * `MonthlyComparisonChart`: this year's and last year's spending per month as pairs of bars,
 * scaled to the largest value, with a y axis in quarters of it.
 */
module MonthlyComparisonChart {
  import Collections

  datatype MonthlyData = MonthlyData(month: int, currentYear: real, previousYear: real)

  /** `CHART_HEIGHT`, the pixels available to a full bar. */
  const ChartHeight := 280.0

  /** The smallest height of a bar for a positive value. */
  const MinBarHeight := 8.0

  /** `maxValue`: the largest of 1 and every value of either year. */
  function MaxValue(data: seq<MonthlyData>): (r: real)
    ensures r >= 1.0
    ensures forall i :: 0 <= i < |data| ==> data[i].currentYear <= r && data[i].previousYear <= r
    ensures r == 1.0 || exists i :: 0 <= i < |data| && (r == data[i].currentYear || r == data[i].previousYear)
  {
    if data == [] then 1.0
    else
      var init, last := data[..|data| - 1], data[|data| - 1];
      var r := Collections.MaxReal(MaxValue(init), Collections.MaxReal(last.currentYear, last.previousYear));
      assert forall i :: 0 <= i < |init| ==> init[i] == data[i];
      r
  }

  /** `hasData`: some month has a positive value in either year. */
  predicate HasData(data: seq<MonthlyData>)
  {
    exists i :: 0 <= i < |data| && (data[i].currentYear > 0.0 || data[i].previousYear > 0.0)
  }

  /** Without data the scale is the default of 1. */
  lemma NoDataScaleIsOne(data: seq<MonthlyData>)
    requires !HasData(data)
    ensures MaxValue(data) == 1.0
  {
  }

  /** The height of one bar, in pixels: its share of the scale, but at least 8 for a positive value. */
  function BarHeight(value: real, maxValue: real): (h: real)
    requires maxValue > 0.0
    ensures h >= 0.0
    ensures value > 0.0 ==> h >= MinBarHeight
    ensures value <= 0.0 ==> h == 0.0
    ensures value <= maxValue ==> h <= ChartHeight
  {
    var scaled := (value / maxValue) * ChartHeight;
    ScaledBounds(value, maxValue, scaled);
    Collections.MaxReal(scaled, if value > 0.0 then MinBarHeight else 0.0)
  }

  lemma ScaledBounds(value: real, maxValue: real, scaled: real)
    requires maxValue > 0.0 && scaled == (value / maxValue) * ChartHeight
    ensures scaled * maxValue == value * ChartHeight
    ensures value <= 0.0 ==> scaled <= 0.0
    ensures value <= maxValue ==> scaled <= ChartHeight
  {
    var q := value / maxValue;
    assert q * maxValue == value;
  }

  /** Every bar of the chart fits in its height, whatever the data. */
  lemma BarsFit(data: seq<MonthlyData>, i: int)
    requires 0 <= i < |data|
    ensures BarHeight(data[i].currentYear, MaxValue(data)) <= ChartHeight
    ensures BarHeight(data[i].previousYear, MaxValue(data)) <= ChartHeight
  {
  }

  /** The y-axis labels, top to bottom: all, three quarters, half, a quarter of the scale, and 0. */
  function AxisTicks(maxValue: real): (ticks: seq<real>)
    ensures |ticks| == 5 && ticks[0] == maxValue && ticks[4] == 0.0
    ensures forall k :: 0 <= k < 5 ==> ticks[k] * 4.0 == maxValue * (4 - k) as real
  {
    [maxValue, maxValue * 0.75, maxValue * 0.5, maxValue * 0.25, 0.0]
  }

  /** On a positive scale the ticks strictly decrease. */
  lemma AxisTicksDescend(maxValue: real)
    requires maxValue > 0.0
    ensures var t := AxisTicks(maxValue);
      forall k :: 0 <= k < 4 ==> t[k] > t[k + 1]
  {
  }
}
