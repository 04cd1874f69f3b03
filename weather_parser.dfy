/**
 * `logic/weather_parser.py`: the WeatherAPI.com variant of
 * `parse_weather_data`.  Hours are flattened day by day; each row's sunrise
 * and sunset are looked up by the row's local date and parsed from the
 * 12-hour text WeatherAPI gives ("06:45 AM").
 */
module WeatherParser {
  import opened Common
  import opened Clock
  import opened Strptime
  import opened Frames

  /** An entry of a forecast day's "hour" list. */
  datatype ForecastHour = ForecastHour(timeEpoch: int, tempC: real, humidity: real, uv: real)

  /** An entry of "forecast"."forecastday": its "date" (as a day number), its "astro" texts and its hours. */
  datatype ForecastDay = ForecastDay(date: int, sunrise: string, sunset: string, hours: seq<ForecastHour>)

  /** The payload, with "location"."tz_id" resolved to a fixed offset. */
  datatype ForecastPayload = ForecastPayload(tzId: Offset, days: seq<ForecastDay>)

  datatype ParseError =
    | MissingColumn(name: string)   // KeyError: a frame built from no hours has no "time_epoch" column
    | MissingDate(date: int)        // KeyError: no forecast day has the row's local date
    | BadAstroTime(text: string)    // ValueError: the astro text does not match "%I:%M %p"

  // ---------------------------------------------------------------------------
  // Flattening the hours

  /**
   * The hours of all days, day after day, each day's hours in their own
   * order: as many hours as the days hold together (`FlattenAt` says where
   * each one lands).
   */
  function Flatten(days: seq<ForecastDay>): (r: seq<ForecastHour>)
    ensures |r| == HourCount(days)
  {
    if days == [] then [] else Flatten(days[..|days| - 1]) + days[|days| - 1].hours
  }

  /** The total number of hours over all days. */
  function HourCount(days: seq<ForecastDay>): nat
  {
    if days == [] then 0 else HourCount(days[..|days| - 1]) + |days[|days| - 1].hours|
  }

  /** The `all_hours.extend(day["hour"])` loop. */
  method FlattenHours(days: seq<ForecastDay>) returns (allHours: seq<ForecastHour>)
    ensures allHours == Flatten(days)
  {
    allHours := [];
    var d := 0;
    while d < |days|
      invariant 0 <= d <= |days|
      invariant allHours == Flatten(days[..d])
    {
      assert days[..d + 1][..d] == days[..d];
      allHours := allHours + days[d].hours;
      d := d + 1;
    }
    assert days[..|days|] == days;
  }

  /** Hour `j` of day `d` is at position (hours of the days before d) + j. */
  lemma {:induction false} FlattenAt(days: seq<ForecastDay>, d: nat, j: nat)
    requires d < |days| && j < |days[d].hours|
    ensures HourCount(days[..d]) + j < |Flatten(days)|
    ensures Flatten(days)[HourCount(days[..d]) + j] == days[d].hours[j]
  {
    var n := |days| - 1;
    var init := days[..n];
    if d == n {
      assert days[..d] == init;
    } else {
      assert init[..d] == days[..d];
      FlattenAt(init, d, j);
    }
  }

  // ---------------------------------------------------------------------------
  // The sunrise/sunset map

  datatype Astro = Astro(sunrise: string, sunset: string)

  /**
   * The `sunrise_sunset_map` comprehension: keyed by date, later days
   * overwrite earlier ones, so the last day always supplies its own date's
   * texts and there is at most one entry per day.
   */
  function AstroMap(days: seq<ForecastDay>): (r: map<int, Astro>)
    ensures |r| <= |days|
    ensures days != [] ==> days[|days| - 1].date in r
    ensures days != [] ==> r[days[|days| - 1].date] == Astro(days[|days| - 1].sunrise, days[|days| - 1].sunset)
  {
    if days == [] then map[]
    else
      var last := days[|days| - 1];
      AstroMap(days[..|days| - 1])[last.date := Astro(last.sunrise, last.sunset)]
  }

  /** The map has exactly the forecast days' dates as keys. */
  lemma {:induction false} AstroMapKeys(days: seq<ForecastDay>, date: int)
    ensures date in AstroMap(days) <==> exists k :: 0 <= k < |days| && days[k].date == date
  {
    if days != [] {
      var n := |days| - 1;
      AstroMapKeys(days[..n], date);
      if date in AstroMap(days[..n]) {
        var k :| 0 <= k < n && days[..n][k].date == date;
        assert days[k].date == date;
      }
      if exists k :: 0 <= k < |days| && days[k].date == date {
        var k :| 0 <= k < |days| && days[k].date == date;
        if k < n {
          assert days[..n][k].date == date;
        }
      }
    }
  }

  /** When several days share a date, the last of them supplies its astro texts. */
  lemma {:induction false} AstroMapLastWins(days: seq<ForecastDay>, k: nat)
    requires k < |days|
    requires forall j :: k < j < |days| ==> days[j].date != days[k].date
    ensures days[k].date in AstroMap(days)
    ensures AstroMap(days)[days[k].date] == Astro(days[k].sunrise, days[k].sunset)
  {
    var n := |days| - 1;
    if k < n {
      forall j | k < j < n ensures days[..n][j].date != days[..n][k].date {
        assert days[j].date != days[k].date;
      }
      AstroMapLastWins(days[..n], k);
    }
  }

  // ---------------------------------------------------------------------------
  // parse_astro_time

  /**
   * `parse_astro_time(text, date, tz)`: the 12-hour wall time of `text` on
   * `date` in zone `zone`, or `None` where `strptime` raises ValueError.
   */
  function ParseAstroTime(text: string, date: int, zone: Offset): (r: Option<ZonedTime>)
    ensures r.Some? <==> ParseClock12(text).Some?
    ensures r.Some? ==> r.value.offset == zone && LocalDate(r.value) == date
    ensures r.Some? ==> SecondOfDay(r.value) == 60 * ParseClock12(text).value
  {
    match ParseClock12(text)
    case None => None
    case Some(m) => Some(Localize(date, m, zone))
  }

  /** WeatherAPI's own spelling of a time of day parses back to that time on the given date. */
  lemma AstroRoundTrip(t: int, date: int, zone: Offset)
    requires 0 <= t < 1440
    ensures ParseAstroTime(FormatClock12(t), date, zone) == Some(Localize(date, t, zone))
  {
    ParseFormattedClock12(t);
  }

  // ---------------------------------------------------------------------------
  // The sunrise and sunset columns

  function Pick(a: Astro, sunrise: bool): string
  {
    if sunrise then a.sunrise else a.sunset
  }

  /** The sunrise (or sunset) of row time `t`: the text of its local date, parsed on that date. */
  function AstroLookup(m: map<int, Astro>, t: ZonedTime, zone: Offset, sunrise: bool): Option<ZonedTime>
  {
    if LocalDate(t) !in m then None else ParseAstroTime(Pick(m[LocalDate(t)], sunrise), LocalDate(t), zone)
  }

  /** Row time `t` finds its date in the map and the text there parses. */
  predicate Resolves(m: map<int, Astro>, t: ZonedTime, zone: Offset, sunrise: bool)
  {
    AstroLookup(m, t, zone, sunrise).Some?
  }

  function AstroOf(m: map<int, Astro>, t: ZonedTime, zone: Offset, sunrise: bool): ZonedTime
    requires Resolves(m, t, zone, sunrise)
  {
    AstroLookup(m, t, zone, sunrise).value
  }

  /** The exception `apply` raises at row time `t`. */
  function AstroError(m: map<int, Astro>, t: ZonedTime, sunrise: bool): ParseError
  {
    if LocalDate(t) !in m then MissingDate(LocalDate(t)) else BadAstroTime(Pick(m[LocalDate(t)], sunrise))
  }

  /** `k` is the first row whose lookup fails, and `e` is the exception it raises. */
  predicate FirstAstroFailure(times: seq<ZonedTime>, m: map<int, Astro>, zone: Offset, sunrise: bool,
                              k: int, e: ParseError)
  {
    && 0 <= k < |times|
    && !Resolves(m, times[k], zone, sunrise)
    && (forall j :: 0 <= j < k ==> Resolves(m, times[j], zone, sunrise))
    && e == AstroError(m, times[k], sunrise)
  }

  /** `Series.apply(f)`: `f` on each element in order, stopping at the first element where it raises. */
  method Apply(xs: seq<ZonedTime>, f: ZonedTime -> Option<ZonedTime>) returns (r: Result<seq<ZonedTime>, nat>)
    ensures r.Success? <==> forall i :: 0 <= i < |xs| ==> f(xs[i]).Some?
    ensures r.Success? ==> |r.value| == |xs|
    ensures r.Success? ==> forall i :: 0 <= i < |xs| ==> f(xs[i]) == Some(r.value[i])
    ensures r.Failure? ==> r.error < |xs| && f(xs[r.error]).None?
    ensures r.Failure? ==> forall j :: 0 <= j < r.error ==> f(xs[j]).Some?
  {
    var column: seq<ZonedTime> := [];
    var i := 0;
    while i < |xs|
      invariant 0 <= i <= |xs|
      invariant |column| == i
      invariant forall j :: 0 <= j < i ==> f(xs[j]) == Some(column[j])
    {
      var y := f(xs[i]);
      if y.None? {
        return Failure(i);
      }
      column := column + [y.value];
      i := i + 1;
    }
    return Success(column);
  }

  /** One `df["dt"].apply(lambda x: parse_astro_time(...))` pass, in row order. */
  method AstroColumn(times: seq<ZonedTime>, m: map<int, Astro>, zone: Offset, sunrise: bool)
    returns (r: Result<seq<ZonedTime>, ParseError>)
    ensures r.Success? <==> forall i :: 0 <= i < |times| ==> Resolves(m, times[i], zone, sunrise)
    ensures r.Success? ==> |r.value| == |times|
    ensures r.Success? ==> forall i :: 0 <= i < |times| ==> r.value[i] == AstroOf(m, times[i], zone, sunrise)
    ensures r.Failure? ==> exists k :: FirstAstroFailure(times, m, zone, sunrise, k, r.error)
  {
    var column := Apply(times, t => AstroLookup(m, t, zone, sunrise));
    if column.Failure? {
      var k := column.error;
      assert FirstAstroFailure(times, m, zone, sunrise, k, AstroError(m, times[k], sunrise));
      return Failure(AstroError(m, times[k], sunrise));
    }
    return Success(column.value);
  }

  /** The index column: each epoch time, localized to UTC and converted to the payload's zone. */
  function RowTimes(hours: seq<ForecastHour>, zone: Offset): (times: seq<ZonedTime>)
    ensures |times| == |hours|
    ensures forall i :: 0 <= i < |hours| ==> times[i].instant == hours[i].timeEpoch && times[i].offset == zone
  {
    seq(|hours|, i requires 0 <= i < |hours| => AsTimeZone(ZonedTime(hours[i].timeEpoch, 0), zone))
  }

  predicate AllResolve(times: seq<ZonedTime>, m: map<int, Astro>, zone: Offset, sunrise: bool)
  {
    forall i :: 0 <= i < |times| ==> Resolves(m, times[i], zone, sunrise)
  }

  /** The `pd.DataFrame({...})` of the hourly columns, the time column and the two astro columns. */
  method ZipRows(hours: seq<ForecastHour>, times: seq<ZonedTime>, rises: seq<ZonedTime>, sets: seq<ZonedTime>)
    returns (rows: seq<WeatherRow>)
    requires |times| == |hours| && |rises| == |hours| && |sets| == |hours|
    ensures |rows| == |hours|
    ensures forall i :: 0 <= i < |hours| ==>
      rows[i] == WeatherRow(times[i], hours[i].tempC, hours[i].humidity, hours[i].uv, rises[i], sets[i])
  {
    rows := [];
    var i := 0;
    while i < |hours|
      invariant 0 <= i <= |hours|
      invariant |rows| == i
      invariant forall j :: 0 <= j < i ==>
        rows[j] == WeatherRow(times[j], hours[j].tempC, hours[j].humidity, hours[j].uv, rises[j], sets[j])
    {
      rows := rows + [WeatherRow(times[i], hours[i].tempC, hours[i].humidity, hours[i].uv, rises[i], sets[i])];
      i := i + 1;
    }
  }

  /**
   * `parse_weather_data` of `logic/weather_parser.py`.  One row per hour of
   * the flattened forecast; the sunrise and sunset of a row are those of the
   * forecast day whose date is the row's local date, on that date.  The
   * sunrise column is computed first, so its exceptions come first.
   */
  method ParseWeatherData(data: ForecastPayload) returns (r: Result<CityFrame, ParseError>)
    ensures Flatten(data.days) == [] ==> r == Failure(MissingColumn("time_epoch"))
    ensures
      var times, m := RowTimes(Flatten(data.days), data.tzId), AstroMap(data.days);
      r.Success? <==> (Flatten(data.days) != [] && AllResolve(times, m, data.tzId, true)
                                                && AllResolve(times, m, data.tzId, false))
    ensures
      var times, m := RowTimes(Flatten(data.days), data.tzId), AstroMap(data.days);
      Flatten(data.days) != [] && !AllResolve(times, m, data.tzId, true) ==>
        r.Failure? && exists k :: FirstAstroFailure(times, m, data.tzId, true, k, r.error)
    ensures
      var times, m := RowTimes(Flatten(data.days), data.tzId), AstroMap(data.days);
      Flatten(data.days) != [] && AllResolve(times, m, data.tzId, true) && !AllResolve(times, m, data.tzId, false) ==>
        r.Failure? && exists k :: FirstAstroFailure(times, m, data.tzId, false, k, r.error)
    ensures r.Success? ==>
      var hours, m := Flatten(data.days), AstroMap(data.days);
      && r.value.zone == data.tzId
      && |r.value.rows| == |hours|
      && forall i :: 0 <= i < |hours| ==>
        var t := ZonedTime(hours[i].timeEpoch, data.tzId);
        && Resolves(m, t, data.tzId, true) && Resolves(m, t, data.tzId, false)
        && r.value.rows[i] == WeatherRow(t, hours[i].tempC, hours[i].humidity, hours[i].uv,
                                         AstroOf(m, t, data.tzId, true), AstroOf(m, t, data.tzId, false))
  {
    var allHours := FlattenHours(data.days);
    if allHours == [] {
      return Failure(MissingColumn("time_epoch"));
    }
    var tz := data.tzId;
    var times := RowTimes(allHours, tz);
    var m := AstroMap(data.days);
    var sunriseColumn := AstroColumn(times, m, tz, true);
    if sunriseColumn.Failure? {
      return Failure(sunriseColumn.error);
    }
    var sunsetColumn := AstroColumn(times, m, tz, false);
    if sunsetColumn.Failure? {
      return Failure(sunsetColumn.error);
    }
    var rows := ZipRows(allHours, times, sunriseColumn.value, sunsetColumn.value);
    return Success(CityFrame(tz, rows));
  }

  /** A row's sunrise and sunset fall on the row's own local date, in the row's zone. */
  lemma AstroOnRowDate(m: map<int, Astro>, t: ZonedTime, zone: Offset, sunrise: bool)
    requires Resolves(m, t, zone, sunrise)
    ensures LocalDate(AstroOf(m, t, zone, sunrise)) == LocalDate(t)
    ensures AstroOf(m, t, zone, sunrise).offset == zone
  {
  }

  /**
   * A row whose local date is that of forecast day `k`, and no later day has
   * that date, gets day k's sunrise text parsed on that date.
   */
  lemma {:induction false} RowAstroFromItsDay(days: seq<ForecastDay>, k: nat, t: ZonedTime, zone: Offset)
    requires k < |days| && days[k].date == LocalDate(t)
    requires forall j :: k < j < |days| ==> days[j].date != days[k].date
    ensures AstroLookup(AstroMap(days), t, zone, true) == ParseAstroTime(days[k].sunrise, days[k].date, zone)
  {
    AstroMapLastWins(days, k);
  }

  /** Two rows on the same local date get the same sunrise. */
  lemma SameDateSameSunrise(m: map<int, Astro>, t: ZonedTime, u: ZonedTime, zone: Offset)
    requires Resolves(m, t, zone, true) && Resolves(m, u, zone, true)
    requires LocalDate(t) == LocalDate(u)
    ensures AstroOf(m, t, zone, true) == AstroOf(m, u, zone, true)
  {
  }
}
