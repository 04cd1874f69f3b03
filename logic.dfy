/**
 * `logic.py`: the OpenWeather variant of `parse_weather_data`, and the
 * fixed daily routine `create_routine_df`.
 */
module Logic {
  import opened Common
  import opened Clock
  import opened Frames

  /** An entry of the payload's "hourly" list. */
  datatype OwmHour = OwmHour(dt: int, temp: real, humidity: real, uvi: real)

  /** An entry of the payload's "daily" list: sunrise and sunset as epoch seconds. */
  datatype OwmDay = OwmDay(sunrise: int, sunset: int)

  /** The OpenWeather One Call payload, its "timezone" resolved to a fixed offset. */
  datatype OwmPayload = OwmPayload(timezone: Offset, hourly: seq<OwmHour>, daily: seq<OwmDay>)

  datatype ParseError =
    | MissingColumn(name: string)   // KeyError: a frame built from no rows has no "dt" column
    | NoDailyData                   // IndexError: `data["daily"][0]` on an empty list
    | EmptyFrame                    // IndexError: `iloc[0]` on a frame with no rows
    | ScalarHasNoDt                 // AttributeError: a scalar `Timestamp` has no `.dt` accessor

  /**
   * `parse_weather_data` of `logic.py` as written.  The "dt" column converts
   * fine, but the sunrise and sunset of the first daily entry are epoch
   * integers, and `pd.to_datetime` of a single integer is a scalar
   * `Timestamp`, which has no `.dt` accessor.  So, after the `KeyError` of an
   * empty hourly list and the `IndexError` of an empty daily list, every
   * remaining payload raises `AttributeError` at the sunrise column: the
   * function never returns a frame.
   */
  function ParseWeatherData(data: OwmPayload): (r: Result<CityFrame, ParseError>)
    ensures r.Failure?
    ensures data.hourly == [] ==> r == Failure(MissingColumn("dt"))
    ensures data.hourly != [] && data.daily == [] ==> r == Failure(NoDailyData)
    ensures r == Failure(ScalarHasNoDt) <==> data.hourly != [] && data.daily != []
  {
    if data.hourly == [] then Failure(MissingColumn("dt"))
    else if data.daily == [] then Failure(NoDailyData)
    else Failure(ScalarHasNoDt)
  }

  /** One hour at the epoch and a day with sunrise at 06:00 and sunset at 18:00 UTC. */
  const OneHourPayload := OwmPayload(0, [OwmHour(0, 20.0, 50.0, 1.0)], [OwmDay(21600, 64800)])

  /**
   * A payload with both lists non-empty, on which `ParseWeatherDataIntended`
   * succeeds, makes `ParseWeatherData` raise.
   */
  lemma ScalarSunriseRaises()
    ensures OneHourPayload.hourly != [] && OneHourPayload.daily != []
    ensures ParseWeatherData(OneHourPayload) == Failure(ScalarHasNoDt)
  {
  }

  /**
   * `parse_weather_data` of `logic.py` as evidently intended, with the
   * sunrise and sunset converted as scalars: one row per hourly entry, in
   * order, its epoch time shown in the payload's zone; every row carries the
   * same sunrise and sunset, those of the first daily entry.
   */
  method ParseWeatherDataIntended(data: OwmPayload) returns (r: Result<CityFrame, ParseError>)
    ensures data.hourly == [] ==> r == Failure(MissingColumn("dt"))
    ensures data.hourly != [] && data.daily == [] ==> r == Failure(NoDailyData)
    ensures r.Success? <==> data.hourly != [] && data.daily != []
    ensures r.Success? ==> r.value.zone == data.timezone && |r.value.rows| == |data.hourly|
    ensures r.Success? ==> forall i :: 0 <= i < |data.hourly| ==>
      r.value.rows[i] == WeatherRow(
        ZonedTime(data.hourly[i].dt, data.timezone),
        data.hourly[i].temp, data.hourly[i].humidity, data.hourly[i].uvi,
        ZonedTime(data.daily[0].sunrise, data.timezone),
        ZonedTime(data.daily[0].sunset, data.timezone))
  {
    if data.hourly == [] {
      return Failure(MissingColumn("dt"));
    }
    if data.daily == [] {
      return Failure(NoDailyData);
    }
    var tz := data.timezone;
    var sunrise := AsTimeZone(ZonedTime(data.daily[0].sunrise, 0), tz);
    var sunset := AsTimeZone(ZonedTime(data.daily[0].sunset, 0), tz);
    var rows: seq<WeatherRow> := [];
    var i := 0;
    while i < |data.hourly|
      invariant 0 <= i <= |data.hourly|
      invariant |rows| == i
      invariant forall k :: 0 <= k < i ==>
        rows[k] == WeatherRow(
          ZonedTime(data.hourly[k].dt, tz),
          data.hourly[k].temp, data.hourly[k].humidity, data.hourly[k].uvi,
          sunrise, sunset)
    {
      var h := data.hourly[i];
      rows := rows + [WeatherRow(AsTimeZone(ZonedTime(h.dt, 0), tz), h.temp, h.humidity, h.uvi, sunrise, sunset)];
      i := i + 1;
    }
    return Success(CityFrame(tz, rows));
  }

  // ---------------------------------------------------------------------------
  // create_routine_df

  /** Meal times (minutes after local midnight) and labels, in the order of the source. */
  const MealTimes: seq<int> := [480, 720, 1140]
  const MealLabels: seq<string> := ["Breakfast", "Lunch", "Dinner"]

  /**
   * `create_routine_df`, with `datetime.now()` passed in as the instant `now`:
   * five tasks, Work, Breakfast, Lunch, Dinner, Workout.
   *  - Work runs 09:00-17:00 on the Phoenix clock, on the city's current
   *    local date, shown in the city's zone, and lasts 480 minutes.
   *  - Each meal starts at 08:00, 12:00 or 19:00 on the city's clock on that
   *    date and lasts one hour.
   *  - The workout runs from 15 to 90 minutes after the first row's sunrise.
   * `city_name` is not used by the source either.
   */
  method CreateRoutineDf(frame: CityFrame, cityName: string, now: int)
    returns (r: Result<seq<ChartTask>, ParseError>)
    ensures r.Success? <==> frame.rows != []
    ensures frame.rows == [] ==> r == Failure(EmptyFrame)
    ensures r.Success? ==>
      var tasks, today := r.value, LocalDate(ZonedTime(now, frame.zone));
      && |tasks| == 5
      && tasks[0].task == "Work" && tasks[1].task == "Breakfast" && tasks[2].task == "Lunch"
      && tasks[3].task == "Dinner" && tasks[4].task == "Workout"
      && tasks[0].resource == "Work" && tasks[4].resource == "Health"
      && tasks[0].start.offset == frame.zone && tasks[0].finish.offset == frame.zone
      && AsTimeZone(tasks[0].start, Phoenix) == Localize(today, 540, Phoenix)
      && AsTimeZone(tasks[0].finish, Phoenix) == Localize(today, 1020, Phoenix)
      && Duration(tasks[0]) == 480 * 60
      && (forall m :: 0 <= m < 3 ==>
            && tasks[1 + m].resource == "Personal"
            && tasks[1 + m].start == Localize(today, MealTimes[m], frame.zone)
            && tasks[1 + m].finish.offset == frame.zone
            && Duration(tasks[1 + m]) == 3600)
      && tasks[4].start == AddSeconds(frame.rows[0].sunrise, 15 * 60)
      && tasks[4].finish == AddSeconds(frame.rows[0].sunrise, 90 * 60)
  {
    var cityTz := frame.zone;
    var todayLocal := LocalDate(ZonedTime(now, cityTz));
    var tasks: seq<ChartTask> := [];

    var workStartHome := Localize(todayLocal, 540, Phoenix);
    var workEndHome := Localize(todayLocal, 1020, Phoenix);
    tasks := tasks + [ChartTask("Work", AsTimeZone(workStartHome, cityTz), AsTimeZone(workEndHome, cityTz), "Work")];

    var m := 0;
    while m < |MealTimes|
      invariant 0 <= m <= |MealTimes|
      invariant |tasks| == 1 + m
      invariant tasks[0] == ChartTask("Work", AsTimeZone(workStartHome, cityTz), AsTimeZone(workEndHome, cityTz), "Work")
      invariant forall k :: 0 <= k < m ==>
        var start := Localize(todayLocal, MealTimes[k], cityTz);
        tasks[1 + k] == ChartTask(MealLabels[k], start, AddSeconds(start, 3600), "Personal")
    {
      var start := Localize(todayLocal, MealTimes[m], cityTz);
      tasks := tasks + [ChartTask(MealLabels[m], start, AddSeconds(start, 3600), "Personal")];
      m := m + 1;
    }

    if frame.rows == [] {
      return Failure(EmptyFrame);
    }
    var sunriseLocal := frame.rows[0].sunrise;
    var before := tasks;
    tasks := tasks + [ChartTask("Workout", AddSeconds(sunriseLocal, 15 * 60), AddSeconds(sunriseLocal, 90 * 60), "Health")];
    forall k | 0 <= k < 3
      ensures tasks[1 + k] == ChartTask(MealLabels[k], Localize(todayLocal, MealTimes[k], cityTz),
                                        AddSeconds(Localize(todayLocal, MealTimes[k], cityTz), 3600), "Personal")
    {
      assert tasks[1 + k] == before[1 + k];
    }
    assert tasks[1].task == MealLabels[0] && tasks[2].task == MealLabels[1] && tasks[3].task == MealLabels[2];
    return Success(tasks);
  }
}
