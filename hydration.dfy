/**
 * `logic/hydration.py`: hourly and cumulative water intake for one city,
 * in millilitres, over `real` (the source computes in floating point).
 */
module Hydration {
  import opened Common
  import opened Clock
  import opened Frames

  /** A daily need of `weight × 35` ml spread over 16 waking hours. */
  function BaseHourlyIntake(weight: real): (r: real)
    ensures r * 16.0 == weight * 35.0
  {
    weight * 35.0 / 16.0
  }

  /** `max(0, (t - 25) / 5) * 150`: 30 ml per degree above 25 °C, nothing at 25 °C or below. */
  function TemperatureExtra(t: real): (r: real)
    ensures r >= 0.0
    ensures t <= 25.0 ==> r == 0.0
    ensures t > 25.0 ==> r == 30.0 * (t - 25.0)
  {
    (if (t - 25.0) / 5.0 > 0.0 then (t - 25.0) / 5.0 else 0.0) * 150.0
  }

  /** `50 if h > 60 else 0` */
  function HumidityExtra(h: real): (r: real)
    ensures r == 50.0 <==> h > 60.0
    ensures r == 0.0 <==> h <= 60.0
  {
    if h > 60.0 then 50.0 else 0.0
  }

  /** The "Recommended Intake (ml)" of one hour; never below the base intake. */
  function RecommendedIntake(weight: real, t: real, h: real): (r: real)
    ensures r >= BaseHourlyIntake(weight)
    ensures r - BaseHourlyIntake(weight) == TemperatureExtra(t) + HumidityExtra(h)
  {
    BaseHourlyIntake(weight) + TemperatureExtra(t) + HumidityExtra(h)
  }

  function RowIntake(row: WeatherRow, weight: real): real
  {
    RecommendedIntake(weight, row.temperature, row.humidity)
  }

  /**
   * The sum of the recommended intakes of the first `k` rows (what `cumsum`
   * gives at row k - 1); at least the base intake times the number of hours.
   */
  function CumulativeIntake(rows: seq<WeatherRow>, weight: real, k: nat): (r: real)
    requires k <= |rows|
    ensures r >= k as real * BaseHourlyIntake(weight)
  {
    if k == 0 then 0.0 else CumulativeIntake(rows, weight, k - 1) + RowIntake(rows[k - 1], weight)
  }

  /** A row of the result: the index, the two copied columns and the two new ones. */
  datatype HydrationRow = HydrationRow(
    time: ZonedTime, temperature: real, humidity: real, recommended: real, cumulative: real)

  /**
   * `calculate_hydration_needs`: the first `min(24, n)` rows of the input,
   * in order, each with its recommended intake and the running total of the
   * recommended intakes up to and including it.
   */
  method CalculateHydrationNeeds(rows: seq<WeatherRow>, weight: real) returns (out: seq<HydrationRow>)
    ensures |out| == Min(24, |rows|)
    ensures forall i :: 0 <= i < |out| ==> out[i] == HourOfIntake(rows, weight, i)
    ensures weight >= 0.0 ==>
      forall i, j :: 0 <= i <= j < |out| ==> out[i].cumulative <= out[j].cumulative
  {
    var base := BaseHourlyIntake(weight);
    var all: seq<HydrationRow> := [];
    var total := 0.0;
    var i := 0;
    while i < |rows|
      invariant 0 <= i <= |rows|
      invariant |all| == i
      invariant total == CumulativeIntake(rows, weight, i)
      invariant forall k :: 0 <= k < i ==> all[k] == HourOfIntake(rows, weight, k)
    {
      var row := rows[i];
      var intake := base + TemperatureExtra(row.temperature) + HumidityExtra(row.humidity);
      total := total + intake;
      all := all + [HydrationRow(row.time, row.temperature, row.humidity, intake, total)];
      i := i + 1;
    }
    out := all[..Min(24, |all|)];
    if weight >= 0.0 {
      RunningTotalsNonDecreasing(rows, weight, out);
    }
  }

  /**
   * Row `i` of the result: the input row's index, temperature and humidity,
   * its recommended intake, and the sum of the recommended intakes of rows 0..i.
   */
  function HourOfIntake(rows: seq<WeatherRow>, weight: real, i: nat): HydrationRow
    requires i < |rows|
  {
    HydrationRow(rows[i].time, rows[i].temperature, rows[i].humidity,
                 RowIntake(rows[i], weight), CumulativeIntake(rows, weight, i + 1))
  }

  lemma RunningTotalsNonDecreasing(rows: seq<WeatherRow>, weight: real, out: seq<HydrationRow>)
    requires weight >= 0.0 && |out| <= |rows|
    requires forall i :: 0 <= i < |out| ==> out[i] == HourOfIntake(rows, weight, i)
    ensures forall i, j :: 0 <= i <= j < |out| ==> out[i].cumulative <= out[j].cumulative
  {
    forall i, j | 0 <= i <= j < |out| ensures out[i].cumulative <= out[j].cumulative {
      CumulativeNonDecreasing(rows, weight, i + 1, j + 1);
    }
  }

  /** With a non-negative weight the running total never decreases. */
  lemma {:induction false} CumulativeNonDecreasing(rows: seq<WeatherRow>, weight: real, i: nat, j: nat)
    requires weight >= 0.0
    requires i <= j <= |rows|
    ensures CumulativeIntake(rows, weight, i) <= CumulativeIntake(rows, weight, j)
  {
    if i < j {
      CumulativeNonDecreasing(rows, weight, i, j - 1);
      assert RowIntake(rows[j - 1], weight) >= BaseHourlyIntake(weight) >= 0.0;
    }
  }

  /** 75 kg at 25 °C and 50 % humidity: 164.0625 ml, with neither extra. */
  lemma SeventyFiveKilograms()
    ensures BaseHourlyIntake(75.0) == 164.0625
    ensures RecommendedIntake(75.0, 25.0, 50.0) == 164.0625
  {
  }
}
