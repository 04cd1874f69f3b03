/**
 * `logic/planner.py`: the chart data for comparing two cities — the
 * daylight band and sun markers, the comfort-wheel records, and the user's
 * routine projected onto both cities' clocks.
 */
module Planner {
  import opened Common
  import opened Clock
  import opened Strptime
  import opened Utils
  import opened Frames

  /** Why a frame lookup fails: `iloc[0]` on a frame with no rows raises IndexError. */
  datatype PlannerError = EmptyFrame

  // ---------------------------------------------------------------------------
  // get_plot_annotations

  /** A Plotly layout shape (the daylight band). */
  datatype Shape = Shape(
    kind: string, xref: string, yref: string,
    x0: real, y0: real, x1: real, y1: real,
    fillColor: string, layer: string, lineWidth: int)

  /** A Plotly text annotation (a sunrise or sunset marker). */
  datatype TextAnnotation = TextAnnotation(
    x: real, y: real, xref: string, yref: string,
    text: string, showArrow: bool, color: string, size: int)

  datatype PlotAnnotations = PlotAnnotations(shapes: seq<Shape>, annotations: seq<TextAnnotation>)

  /** An entry of `sun_times`: the marker letter, its colour and the city's first sunrise and sunset. */
  datatype SunTimes = SunTimes(city: string, mark: char, color: string, sunrise: ZonedTime, sunset: ZonedTime)

  /** 🌄 and 🌇 */
  const SunriseGlyph: char := '\U{1F304}'
  const SunsetGlyph: char := '\U{1F307}'

  function Marker(x: real, glyph: char, mark: char, color: string): TextAnnotation
  {
    TextAnnotation(x, -0.1, "x", "paper", [glyph, mark], false, color, 14)
  }

  /**
   * `get_plot_annotations`: one daylight band spanning city 1's first sunrise
   * to its first sunset on the Phoenix clock, and four markers in the order
   * sunrise T, sunset T (city 1, red), sunrise D, sunset D (city 2, green).
   */
  method GetPlotAnnotations(city1: CityFrame, name1: string, city2: CityFrame, name2: string)
    returns (r: Result<PlotAnnotations, PlannerError>)
    ensures r.Success? <==> city1.rows != [] && city2.rows != []
    ensures r.Success? ==>
      var a := r.value;
      && |a.shapes| == 1
      && a.shapes[0].kind == "rect"
      && a.shapes[0].x0 == ToAzHour(city1.rows[0].sunrise)
      && a.shapes[0].x1 == ToAzHour(city1.rows[0].sunset)
      && a.shapes[0].y0 == 0.0 && a.shapes[0].y1 == 1.0
      && |a.annotations| == 4
      && a.annotations[0] == Marker(ToAzHour(city1.rows[0].sunrise), SunriseGlyph, 'T', "red")
      && a.annotations[1] == Marker(ToAzHour(city1.rows[0].sunset), SunsetGlyph, 'T', "red")
      && a.annotations[2] == Marker(ToAzHour(city2.rows[0].sunrise), SunriseGlyph, 'D', "green")
      && a.annotations[3] == Marker(ToAzHour(city2.rows[0].sunset), SunsetGlyph, 'D', "green")
    ensures r.Success? ==>
      forall k :: 0 <= k < |r.value.annotations| ==> 0.0 <= r.value.annotations[k].x < 24.0
  {
    if city1.rows == [] || city2.rows == [] {
      return Failure(EmptyFrame);
    }
    var sunriseRef, sunsetRef := city1.rows[0].sunrise, city1.rows[0].sunset;
    var shapes := [Shape("rect", "x", "paper", ToAzHour(sunriseRef), 0.0, ToAzHour(sunsetRef), 1.0,
                         "rgba(255, 224, 130, 0.3)", "below", 0)];
    var sunTimes := [
      SunTimes(name1, 'T', "red", city1.rows[0].sunrise, city1.rows[0].sunset),
      SunTimes(name2, 'D', "green", city2.rows[0].sunrise, city2.rows[0].sunset)];
    var annotations: seq<TextAnnotation> := [];
    var i := 0;
    while i < |sunTimes|
      invariant 0 <= i <= |sunTimes|
      invariant |annotations| == 2 * i
      invariant forall k :: 0 <= k < i ==>
        && annotations[2 * k] == Marker(ToAzHour(sunTimes[k].sunrise), SunriseGlyph, sunTimes[k].mark, sunTimes[k].color)
        && annotations[2 * k + 1] == Marker(ToAzHour(sunTimes[k].sunset), SunsetGlyph, sunTimes[k].mark, sunTimes[k].color)
    {
      var item := sunTimes[i];
      annotations := annotations + [Marker(ToAzHour(item.sunrise), SunriseGlyph, item.mark, item.color)];
      annotations := annotations + [Marker(ToAzHour(item.sunset), SunsetGlyph, item.mark, item.color)];
      i := i + 1;
    }
    assert sunTimes[0].mark == 'T' && sunTimes[1].mark == 'D';
    assert annotations[2 * 1] == Marker(ToAzHour(sunTimes[1].sunrise), SunriseGlyph, 'D', "green");
    assert annotations[2 * 1 + 1] == Marker(ToAzHour(sunTimes[1].sunset), SunsetGlyph, 'D', "green");
    return Success(PlotAnnotations(shapes, annotations));
  }

  // ---------------------------------------------------------------------------
  // prepare_comfort_wheel_data

  /** A row of the comfort-wheel frame: Metric, Value, City, Category. */
  datatype WheelRecord = WheelRecord(metric: string, value: real, city: string, category: string)

  /** The keys of `ideal_ranges`, in their insertion order, and their ranges. */
  const Metrics: seq<string> := ["Temperature (°C)", "Humidity (%)", "UV Index"]
  const IdealRanges: seq<(real, real)> := [(20.0, 24.0), (40.0, 60.0), (0.0, 2.0)]

  /** `row[metric]` for the `j`-th metric. */
  function MetricValue(row: WeatherRow, j: int): real
    requires 0 <= j < 3
  {
    if j == 0 then row.temperature else if j == 1 then row.humidity else row.uv
  }

  /**
   * `prepare_comfort_wheel_data`: twelve records — the three current values
   * of city 1 and then of city 2, each from the city's first row, followed by
   * the minimum and the maximum of each metric's ideal range.
   */
  method PrepareComfortWheelData(city1: CityFrame, name1: string, city2: CityFrame, name2: string)
    returns (r: Result<seq<WheelRecord>, PlannerError>)
    ensures r.Success? <==> city1.rows != [] && city2.rows != []
    ensures r.Success? ==> |r.value| == 12
    ensures r.Success? ==> forall j :: 0 <= j < 3 ==>
      && r.value[j] == WheelRecord(Metrics[j], MetricValue(city1.rows[0], j), name1, "Current")
      && r.value[3 + j] == WheelRecord(Metrics[j], MetricValue(city2.rows[0], j), name2, "Current")
      && r.value[6 + 2 * j] == WheelRecord(Metrics[j], IdealRanges[j].0, "Ideal", "Ideal")
      && r.value[7 + 2 * j] == WheelRecord(Metrics[j], IdealRanges[j].1, "Ideal", "Ideal")
  {
    var cities := [(name1, city1), (name2, city2)];
    var all: seq<WheelRecord> := [];
    var c := 0;
    while c < |cities|
      invariant 0 <= c <= |cities|
      invariant forall k :: 0 <= k < c ==> cities[k].1.rows != []
      invariant |all| == 3 * c
      invariant forall k, j :: 0 <= k < c && 0 <= j < 3 ==>
        all[3 * k + j] == WheelRecord(Metrics[j], MetricValue(cities[k].1.rows[0], j), cities[k].0, "Current")
    {
      var (cityName, frame) := cities[c];
      if frame.rows == [] {
        return Failure(EmptyFrame);
      }
      var current := frame.rows[0];
      var j := 0;
      while j < |Metrics|
        invariant 0 <= j <= |Metrics|
        invariant |all| == 3 * c + j
        invariant forall k, m :: 0 <= k < c && 0 <= m < 3 ==>
          all[3 * k + m] == WheelRecord(Metrics[m], MetricValue(cities[k].1.rows[0], m), cities[k].0, "Current")
        invariant forall m :: 0 <= m < j ==>
          all[3 * c + m] == WheelRecord(Metrics[m], MetricValue(current, m), cityName, "Current")
      {
        all := all + [WheelRecord(Metrics[j], MetricValue(current, j), cityName, "Current")];
        j := j + 1;
      }
      c := c + 1;
    }
    assert cities[0].1 == city1 && cities[1].1 == city2;
    assert city1.rows != [] && city2.rows != [] by {
      assert cities[0].1.rows != [] && cities[1].1.rows != [];
    }
    var j := 0;
    while j < |Metrics|
      invariant 0 <= j <= |Metrics|
      invariant |all| == 6 + 2 * j
      invariant forall k, m :: 0 <= k < 2 && 0 <= m < 3 ==>
        all[3 * k + m] == WheelRecord(Metrics[m], MetricValue(cities[k].1.rows[0], m), cities[k].0, "Current")
      invariant forall m :: 0 <= m < j ==>
        && all[6 + 2 * m] == WheelRecord(Metrics[m], IdealRanges[m].0, "Ideal", "Ideal")
        && all[7 + 2 * m] == WheelRecord(Metrics[m], IdealRanges[m].1, "Ideal", "Ideal")
    {
      all := all + [WheelRecord(Metrics[j], IdealRanges[j].0, "Ideal", "Ideal"),
                    WheelRecord(Metrics[j], IdealRanges[j].1, "Ideal", "Ideal")];
      j := j + 1;
    }
    forall m | 0 <= m < 3
      ensures all[m] == WheelRecord(Metrics[m], MetricValue(city1.rows[0], m), name1, "Current")
      ensures all[3 + m] == WheelRecord(Metrics[m], MetricValue(city2.rows[0], m), name2, "Current")
    {
      assert all[3 * 0 + m] == all[m] && all[3 * 1 + m] == all[3 + m];
    }
    return Success(all);
  }

  // ---------------------------------------------------------------------------
  // build_gantt_df

  /** An entry of the user's routine: `{"task": ..., "start": "HH:MM", "end": "HH:MM"}`. */
  datatype RoutineItem = RoutineItem(task: string, start: string, end: string)

  predicate Parses(item: RoutineItem)
  {
    ParseHourMinute(item.start).Some? && ParseHourMinute(item.end).Some?
  }

  /** The text whose `strptime` raises first: the start is parsed before the end. */
  function FirstBadTime(item: RoutineItem): string
  {
    if ParseHourMinute(item.start).None? then item.start else item.end
  }

  /**
   * What the two Gantt rows of one routine task are.  Both carry the task's
   * label; the first is shown in city 1's zone and named after city 1's
   * short name, the second likewise for city 2.  On the Phoenix clock the
   * first row starts and ends at the task's "HH:MM" times on the reference
   * date, and the second row denotes the same two instants.
   */
  predicate ProjectedPair(item: RoutineItem, today: int, zone1: Offset, name1: string,
                          zone2: Offset, name2: string, row1: ChartTask, row2: ChartTask)
  {
    && Parses(item)
    && row1.task == item.task && row2.task == item.task
    && row1.resource == ShortName(name1) && row2.resource == ShortName(name2)
    && row1.start.offset == zone1 && row1.finish.offset == zone1
    && row2.start.offset == zone2 && row2.finish.offset == zone2
    && AsTimeZone(row1.start, Phoenix) == Localize(today, ParseHourMinute(item.start).value, Phoenix)
    && AsTimeZone(row1.finish, Phoenix) == Localize(today, ParseHourMinute(item.end).value, Phoenix)
    && row2.start.instant == row1.start.instant
    && row2.finish.instant == row1.finish.instant
  }

  /**
   * `build_gantt_df`, with `date.today()` passed in as `today` and the zones
   * of the two weather frames' indexes as `zone1` and `zone2`: two rows per
   * routine task, in task order, city 1's before city 2's.  A start or end
   * time that is not "HH:MM" raises ValueError for the whole routine.
   */
  method BuildGanttDf(routine: seq<RoutineItem>, zone1: Offset, name1: string,
                      zone2: Offset, name2: string, today: int)
    returns (r: Result<seq<ChartTask>, string>)
    ensures r.Success? <==> forall k :: 0 <= k < |routine| ==> Parses(routine[k])
    ensures r.Failure? ==>
      exists k :: 0 <= k < |routine| && !Parses(routine[k])
        && (forall j :: 0 <= j < k ==> Parses(routine[j]))
        && r.error == FirstBadTime(routine[k])
    ensures r.Success? ==> |r.value| == 2 * |routine|
    ensures r.Success? ==> forall k :: 0 <= k < |routine| ==>
      ProjectedPair(routine[k], today, zone1, name1, zone2, name2, r.value[2 * k], r.value[2 * k + 1])
  {
    var rows: seq<ChartTask> := [];
    var i := 0;
    while i < |routine|
      invariant 0 <= i <= |routine|
      invariant forall k :: 0 <= k < i ==> Parses(routine[k])
      invariant |rows| == 2 * i
      invariant forall k :: 0 <= k < i ==>
        ProjectedPair(routine[k], today, zone1, name1, zone2, name2, rows[2 * k], rows[2 * k + 1])
    {
      var item := routine[i];
      var start := ParseHourMinute(item.start);
      if start.None? {
        return Failure(item.start);
      }
      var end := ParseHourMinute(item.end);
      if end.None? {
        return Failure(item.end);
      }
      var startHome := Localize(today, start.value, Phoenix);
      var endHome := Localize(today, end.value, Phoenix);
      rows := rows + [ChartTask(item.task, AsTimeZone(startHome, zone1), AsTimeZone(endHome, zone1), ShortName(name1))];
      rows := rows + [ChartTask(item.task, AsTimeZone(startHome, zone2), AsTimeZone(endHome, zone2), ShortName(name2))];
      i := i + 1;
    }
    return Success(rows);
  }

  /**
   * Both rows of a task last exactly as long as the task does on the
   * routine's clock, in minutes times sixty; an end before the start gives
   * a negative length, which nothing rejects.
   */
  lemma ProjectedDuration(item: RoutineItem, today: int, zone1: Offset, name1: string,
                          zone2: Offset, name2: string, row1: ChartTask, row2: ChartTask)
    requires ProjectedPair(item, today, zone1, name1, zone2, name2, row1, row2)
    ensures Duration(row1) == Duration(row2)
         == 60 * (ParseHourMinute(item.end).value - ParseHourMinute(item.start).value)
  {
    var s, e := ParseHourMinute(item.start).value, ParseHourMinute(item.end).value;
    assert row1.start.instant == Localize(today, s, Phoenix).instant;
    assert row1.finish.instant == Localize(today, e, Phoenix).instant;
  }

  /**
   * A city row's clock reads the routine's time moved by the difference
   * between the city's offset and Phoenix's, modulo one day.
   */
  lemma {:induction false} ProjectedClock(item: RoutineItem, today: int, zone1: Offset, name1: string,
                                          zone2: Offset, name2: string, row1: ChartTask, row2: ChartTask)
    requires ProjectedPair(item, today, zone1, name1, zone2, name2, row1, row2)
    ensures SecondOfDay(row1.start) == 60 * ((ParseHourMinute(item.start).value + zone1 - Phoenix) % MinutesPerDay)
    ensures SecondOfDay(row2.start) == 60 * ((ParseHourMinute(item.start).value + zone2 - Phoenix) % MinutesPerDay)
    ensures SecondOfDay(row1.finish) == 60 * ((ParseHourMinute(item.end).value + zone1 - Phoenix) % MinutesPerDay)
    ensures SecondOfDay(row2.finish) == 60 * ((ParseHourMinute(item.end).value + zone2 - Phoenix) % MinutesPerDay)
  {
    var s, e := ParseHourMinute(item.start).value, ParseHourMinute(item.end).value;
    ConvertedClock(today, s, Phoenix, zone1);
    ConvertedClock(today, s, Phoenix, zone2);
    ConvertedClock(today, e, Phoenix, zone1);
    ConvertedClock(today, e, Phoenix, zone2);
    assert row1.start == AsTimeZone(Localize(today, s, Phoenix), zone1);
    assert row2.start == AsTimeZone(Localize(today, s, Phoenix), zone2);
    assert row1.finish == AsTimeZone(Localize(today, e, Phoenix), zone1);
    assert row2.finish == AsTimeZone(Localize(today, e, Phoenix), zone2);
  }

  /**
   * A task from 08:00 to 09:00 on the Phoenix clock shows as 16:00 to 17:00
   * in a city eight hours ahead (London in summer, UTC+1), and still lasts
   * sixty minutes.
   */
  lemma LondonExample(today: int, row1: ChartTask, row2: ChartTask)
    requires ProjectedPair(RoutineItem("Standup", "08:00", "09:00"), today, 60, "London, UK",
                           Phoenix, "Phoenix, AZ", row1, row2)
    ensures HourOf(row1.start) == 16 && MinuteOf(row1.start) == 0
    ensures HourOf(row1.finish) == 17 && MinuteOf(row1.finish) == 0
    ensures Duration(row1) == 3600
    ensures row1.resource == "London"
  {
    var item := RoutineItem("Standup", "08:00", "09:00");
    ParseEightAndNine();
    ProjectedClock(item, today, 60, "London, UK", Phoenix, "Phoenix, AZ", row1, row2);
    assert (480 + 60 - Phoenix) % MinutesPerDay == 960;
    assert (540 + 60 - Phoenix) % MinutesPerDay == 1020;
    assert SecondOfDay(row1.start) == 57600 && SecondOfDay(row1.finish) == 61200;
    ProjectedDuration(item, today, 60, "London, UK", Phoenix, "Phoenix, AZ", row1, row2);
    ShortNameOfLondon();
  }

  lemma ParseEightAndNine()
    ensures ParseHourMinute("08:00") == Some(480) && ParseHourMinute("09:00") == Some(540)
  {
    assert "08:00" == SpellHourMinute(480, true, true);
    assert "09:00" == SpellHourMinute(540, true, true);
    ParseSpelledHourMinute(480, true, true);
    ParseSpelledHourMinute(540, true, true);
  }

  lemma ShortNameOfLondon()
    ensures ShortName("London, UK") == "London"
  {
    assert "London, UK"[6] == ',';
  }
}
