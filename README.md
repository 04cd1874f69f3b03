# MoveGuiderAI core, modelled in Dafny

MoveGuiderAI compares two cities a user may move between. This project models its
time-zone and data-shaping core:

- **Weather parsing.** The WeatherAPI.com payload parser turns a forecast into an hourly city
  frame with sunrise and sunset columns. It looks up each row's astro times by the row's local
  date and parses "06:45 AM" texts. The OpenWeather parser in `logic.py`, as written, never
  returns a frame: it raises on every payload (see "## Findings"). Its evidently intended
  behaviour, the same frame shape with the first day's sunrise and sunset on every row, is
  modelled beside it.
- **Routine projection.** The user's "HH:MM" routine, anchored on the Phoenix (home) clock,
  is projected onto both cities' clocks for the Gantt chart. The fixed daily routine of
  `create_routine_df` is modelled as well.
- **Chart helpers.**
  - The daylight band and the sunrise/sunset markers appear on the Phoenix hour axis.
  - The comfort-wheel records pair the current values with the ideal ranges.
  - `to_az_hour` is the conversion these charts use.
- **Hydration.** The hourly recommended intake and its running total cover the first 24 hours.
- **Checklist.** The downloadable move checklist text.
- **Profiles.** The profile store's get, list, update and delete operations.

Time is modelled in a few steps.

- An instant is a whole number of seconds since the epoch.
- A zone is a fixed offset in minutes east of UTC. Phoenix is -420, and Arizona keeps no
  daylight saving time.
- A zone-aware datetime is `Clock.ZonedTime(instant, offset)`.
- `astimezone` keeps the instant and changes the offset.
- pytz's `localize(datetime.combine(date, time))` is `Clock.Localize(date, minuteOfDay, zone)`.
- A calendar date is a day number: the wall-clock seconds divided by 86400, rounded down.

The modules follow the source files:

- `common.dfy`: `Common`, which holds `Option`, `Result`, `ShortName` (the text before the
  first comma) and `Min`.
- `clock.dfy`: `Clock`.
- `strptime.dfy`: `Strptime`, which models Python's `datetime.strptime` for the two formats
  the core uses: `"%H:%M"` and the `"%I:%M %p"` tail of `"%Y-%m-%d %I:%M %p"`.
- `utils.dfy`: `Utils`, for `logic/utils.py`.
- `frames.dfy`: `Frames`, the shared records for a city frame row and a Gantt row.
- `planner.dfy`: `Planner`, for `logic/planner.py`.
- `hydration.dfy`: `Hydration`, for `logic/hydration.py`.
- `logic.dfy`: `Logic`, for `logic.py`.
- `weather_parser.dfy`: `WeatherParser`, for `logic/weather_parser.py`.
- `generator.dfy`: `Generator`, for `logic/generator.py`.
- `user_profiles.dfy`: `UserProfiles`, for `logic/user_profiles.py`.

Loops and appends in the source are methods with loop invariants. Each method is proved
against a reference function or an explicit description of its result. State that the
source updates in place is a class field:

- the checklist's `lines` list is `Generator.LineList.lines`;
- the profile file is `UserProfiles.ProfileStore.file`.

Code that raises is modelled as a `Failure` value, not as a precondition:

- `KeyError` from a frame built from no rows;
- `IndexError` from `iloc[0]` on an empty frame;
- `ValueError` from `strptime`;
- `KeyError` for a date missing from the astro map.

Two behaviours of the routine projection are worth stating plainly:

- **Malformed routine time.** A malformed routine time raises `ValueError` for the whole
  routine; no task is skipped. `build_gantt_df` calls `strptime` on every task's start and
  end, and `Planner.BuildGanttDf` returns that failure, naming the first bad text.
- **End before start.** A task whose end is before its start is projected as-is, with a
  negative duration (`Planner.ProjectedDuration`).

## Model

| member | source | states |
|---|---|---|
| Common.ShortName | logic/planner.py:208 | `split(",")[0]`: a prefix of the name, free of commas, ending at the first comma when there is one, and the whole name when there is none |
| Clock.Localize | logic/planner.py:197-198 | the localized time has the zone's offset, falls on the given date, and its clock reads the given hour and minute |
| Clock.AsTimeZone | logic/planner.py:201-202 | `astimezone` keeps the instant and takes the new offset, so the wall clock moves by the offset difference |
| Clock.AddSeconds | logic.py:88 | adding a `timedelta` moves the instant and the wall clock by the same amount and keeps the zone |
| Clock.ConvertedClock | logic/planner.py:201-202 | a time localized in one zone and converted to another reads the original clock moved by the offset difference, modulo one day |
| Strptime.ParseHourMinute | logic/planner.py:193-194 | an accepted "%H:%M" text gives a minute of the day below 1440 |
| Strptime.ParseSpelledHourMinute | logic/planner.py:193-194 | every spelling of a time of day that "%H:%M" allows parses back to that time, with or without zero padding of either field |
| Strptime.ParsedHourMinuteIsSpelled | logic/planner.py:193-194 | every text that "%H:%M" accepts is one of those spellings, so nothing else is accepted |
| Strptime.NumeralRoundTrip | logic/planner.py:193-194 | a one- or two-digit field spelled from a value reads back as that value, and is two digits exactly when padded or at least 10 |
| Strptime.IsSpaceIsPythonWhitespace | logic/weather_parser.py:35 | the `\s` that "%I:%M %p" matches between fields is exactly the 29 characters `str.isspace` accepts |
| Strptime.ParseClock12 | logic/weather_parser.py:35 | an accepted "%I:%M %p" text gives a minute of the day below 1440 |
| Strptime.ParseMeridiem | logic/weather_parser.py:35 | `%p` accepts exactly "am" and "pm" in any letter case, and gives PM exactly for "pm" |
| Strptime.To24Hour | logic/weather_parser.py:35 | a 12-hour field with AM/PM becomes an hour below 24 that is at least 12 exactly for PM |
| Strptime.To24HourModTwelve | logic/weather_parser.py:35 | the converted hour is the only hour of the day on the marker's side of noon that agrees with the field modulo 12 |
| Strptime.ParseSpelledClock12 | logic/weather_parser.py:35 | every text of the form leading whitespace, hour 1..12, ":", minute 0..59, whitespace, AM/PM parses to the matching minute of the day |
| Strptime.ParseFormattedClock12 | logic/weather_parser.py:35 | WeatherAPI's "hh:mm AM" spelling of any time of day parses back to that time |
| Utils.ToAzHour | logic/utils.py:5-9 | the hour on the Phoenix clock lies in [0, 24) |
| Utils.ToAzHourIsMinuteOfDay | logic/utils.py:8-9 | sixty times the result is the minute of the day on the Phoenix clock |
| Utils.ToAzHourIgnoresZone | logic/utils.py:8 | only the instant matters, not the zone the input is shown in |
| Utils.ToAzHourDropsSeconds | logic/utils.py:9 | instants in the same minute give the same hour value, since seconds are dropped |
| Planner.GetPlotAnnotations | logic/planner.py:52-118 | fails exactly when a frame is empty; otherwise gives one band from city 1's first sunrise to its first sunset on the Phoenix axis, then four markers in order (city 1 sunrise and sunset "T" in red, city 2 "D" in green), all inside [0, 24) |
| Planner.PrepareComfortWheelData | logic/planner.py:121-167 | fails exactly when a frame is empty; otherwise twelve records: city 1's three current values, then city 2's, then for each metric the low and high end of its ideal range |
| Planner.BuildGanttDf | logic/planner.py:170-227 | succeeds exactly when every start and end is a valid "%H:%M"; on failure the error is the first bad text in routine order; on success two rows per task in task order, each pair as `ProjectedPair` describes |
| Planner.ProjectedDuration | logic/planner.py:197-222 | both cities' rows of a task last end − start minutes (negative when end is before start) |
| Planner.ProjectedClock | logic/planner.py:201-214 | each city's row reads the routine time moved by that city's offset from Phoenix, modulo a day |
| Planner.LondonExample | logic/planner.py:191-210 | an 08:00–09:00 Phoenix task shows as 16:00–17:00 in a UTC+1 city named "London, UK", one hour long, resource "London" |
| Planner.ParseEightAndNine | logic/planner.py:193-194 | "08:00" and "09:00" are minutes 480 and 540 |
| Planner.ShortNameOfLondon | logic/planner.py:208 | "London, UK" shortens to "London" |
| Hydration.BaseHourlyIntake | logic/hydration.py:14 | 16 hours of the base intake are 35 ml per kilogram |
| Hydration.TemperatureExtra | logic/hydration.py:15 | never negative; none at or below 25 °C; 30 ml per degree above |
| Hydration.HumidityExtra | logic/hydration.py:16 | 50 ml exactly when humidity is above 60 %, otherwise none |
| Hydration.RecommendedIntake | logic/hydration.py:18 | never below the base intake; the excess is the two extras |
| Hydration.CalculateHydrationNeeds | logic/hydration.py:5-21 | min(24, n) rows in order, each carrying its row's time, temperature and humidity, its recommended intake and the running total up to and including it; with a non-negative weight the running total never decreases |
| Hydration.CumulativeNonDecreasing | logic/hydration.py:19 | with a non-negative weight the cumulative sum is monotone in the row count |
| Hydration.RunningTotalsNonDecreasing | logic/hydration.py:19-21 | the result's cumulative column never decreases |
| Hydration.CumulativeIntake | logic/hydration.py:18-19 | the `cumsum` of the recommended intakes over the first k rows; it is at least k base intakes |
| Hydration.SeventyFiveKilograms | logic/hydration.py:14-18 | 75 kg at 25 °C and 50 % humidity: 164.0625 ml per hour |
| Logic.ParseWeatherData | logic.py:8-33 | never succeeds: no hourly entries gives KeyError on "dt"; no daily entry gives IndexError; with both present it is the AttributeError of `.dt` on a scalar Timestamp, exactly then |
| Logic.ScalarSunriseRaises | logic.py:24-28 | a one-hour, one-day payload makes the parser raise AttributeError |
| Logic.ParseWeatherDataIntended | logic.py:8-45 | the same two errors; otherwise one row per hourly entry, in order, in the payload's zone, all with the first daily entry's sunrise and sunset |
| Logic.CreateRoutineDf | logic.py:48-103 | fails exactly on an empty frame; otherwise five tasks. Work is 09:00–17:00 on the Phoenix clock on the city's current date, shown in the city's zone, 8 hours long. Breakfast, lunch and dinner start at 08:00, 12:00 and 19:00 city time and last an hour. The workout runs 15 to 90 minutes after the first sunrise |
| WeatherParser.FlattenHours | logic/weather_parser.py:12-14 | the hours of all forecast days, day after day |
| WeatherParser.Flatten | logic/weather_parser.py:12-14 | the flattened list holds as many hours as all days together |
| WeatherParser.FlattenAt | logic/weather_parser.py:12-14 | hour j of day d lands at position (hours of earlier days) + j, so order is kept |
| WeatherParser.AstroMap | logic/weather_parser.py:25-31 | at most one entry per day, and the last day always supplies its own date's sunrise and sunset |
| WeatherParser.AstroMapKeys | logic/weather_parser.py:25-31 | the astro map's keys are exactly the forecast days' dates |
| WeatherParser.AstroMapLastWins | logic/weather_parser.py:25-31 | for a repeated date the last day's sunrise and sunset win |
| WeatherParser.ParseAstroTime | logic/weather_parser.py:33-36 | succeeds exactly when the text parses as "%I:%M %p"; the result is in the given zone, on the given date, at the parsed time of day |
| WeatherParser.AstroRoundTrip | logic/weather_parser.py:33-36 | WeatherAPI's spelling of a time of day gives back that time on the date |
| WeatherParser.Apply | logic/weather_parser.py:38-51 | succeeds exactly when the function succeeds on every element, and then holds its results in order; on failure gives the first failing index |
| WeatherParser.AstroColumn | logic/weather_parser.py:38-51 | succeeds exactly when every row's local date is in the map and its text parses; each value is that row's astro time; on failure the error is the first failing row's KeyError or ValueError |
| WeatherParser.RowTimes | logic/weather_parser.py:19-23 | one time per hour, with its epoch instant, in the payload's zone |
| WeatherParser.ZipRows | logic/weather_parser.py:53-63 | one row per hour joining its time, temperature, humidity, UV, sunrise and sunset |
| WeatherParser.ParseWeatherData | logic/weather_parser.py:7-64 | no hours: KeyError on "time_epoch"; any sunrise failure is reported before any sunset failure, as the first failing row's; success exactly when every row resolves both; then one row per flattened hour, in order, with its own date's sunrise and sunset |
| WeatherParser.AstroOnRowDate | logic/weather_parser.py:38-51 | a row's sunrise and sunset fall on the row's own local date, in the payload's zone |
| WeatherParser.RowAstroFromItsDay | logic/weather_parser.py:25-44 | a row dated like forecast day k (and no later day) gets day k's sunrise text parsed on that date |
| WeatherParser.SameDateSameSunrise | logic/weather_parser.py:38-44 | two rows on the same local date get the same sunrise |
| Generator.Upper | logic/generator.py:29 | `upper()` keeps the length and upper-cases each ASCII letter |
| Generator.UpperIsUpper | logic/generator.py:29 | upper-cased text has no lower-case letter and upper-casing it again changes nothing |
| Generator.Join | logic/generator.py:84 | `"\n".join(lines)`: nothing for no lines; otherwise the joined text is as long as every line plus one separator between each two |
| Generator.JoinAppend | logic/generator.py:84 | joining two blocks of lines is joining each and putting one separator between them |
| Generator.Header | logic/generator.py:29 | the title upper-cased between "\n--- " and " ---\n", ten characters longer than the title, and never an item line |
| Generator.Item | logic/generator.py:31 | an item line whose text after the "[ ] " box is the item |
| Generator.Seasonal | logic/generator.py:45 | the seasonal branch is taken exactly when the mode is "Seasonal Simulation" and a month is given that is not empty |
| Generator.Setting | logic/generator.py:65-66 | the profile's setting when present, "N/A" when the settings or the key are missing |
| Generator.SourceWordingWellFormed | logic/generator.py:34-82 | the source's wording has five logistics and three remote-work items, and each f-string has the holes it fills |
| Generator.LineList.Append | logic/generator.py:29 | `lines.append`: the line is added at the end and the earlier lines are kept |
| Generator.ChecklistLines | logic/generator.py:16-82 | the reference list of checklist lines: 26 lines, the first six being the banner |
| Generator.LineList.AddSection | logic/generator.py:28-31 | appends the upper-cased header and then one "[ ] " line per item, in order |
| Generator.GenerateWith | logic/generator.py:5-84 | the text is the newline-join of the banner, the cities, the date and the four sections, built by appends |
| Generator.GenerateMoveChecklistText | logic/generator.py:5-84 | the same, with the source's own wording |
| Generator.SectionItems | logic/generator.py:28-31 | every line of a section after its header is an item line |
| Generator.ChecklistShape | logic/generator.py:16-82 | 26 lines: the banner, "Moving from", "Moving to" with the short name, "Generated on", headers at lines 6, 12, 16 and 22, and every other line after the banner an item |
| Generator.PackingBranch | logic/generator.py:44-62 | the seasonal packing lines appear exactly when the plan mode is "Seasonal Simulation" with a non-empty month, the live-forecast lines otherwise, and the local-climate line always |
| Generator.WellnessTimes | logic/generator.py:65-68 | the body-clock line names the profile's wake and sleep times, and "N/A" for both without settings |
| UserProfiles.ProfileStore.LoadProfiles | logic/user_profiles.py:11-16 | a missing file loads as the empty dictionary, an existing one as its contents |
| UserProfiles.ProfileStore.SaveProfiles | logic/user_profiles.py:19-22 | the file exists afterwards and holds exactly the given dictionary |
| UserProfiles.ProfileStore.GetProfileNames | logic/user_profiles.py:25-27 | every stored name exactly once and nothing else |
| UserProfiles.ProfileStore.GetProfile | logic/user_profiles.py:30-32 | the stored profile, or `{}` for an unknown name |
| UserProfiles.ProfileStore.UpdateProfile | logic/user_profiles.py:35-38 | afterwards the name maps to the data, every other name is present and unchanged exactly as before, and the file is saved |
| UserProfiles.ProfileStore.DeleteProfile | logic/user_profiles.py:41-45 | a stored name is removed, the rest kept and saved; for an unknown name the file is untouched (a missing file stays missing) |

## Findings

| source | as written | input that shows it | evidently intended | confidence | as-written member | corrected member |
|---|---|---|---|---|---|---|
| logic.py:24-33 | `pd.to_datetime(daily_data["sunrise"], unit="s")` on a single epoch number is a scalar `Timestamp`, which has no `.dt` accessor, so every payload with hourly and daily entries raises AttributeError | hourly = one entry at epoch 0 (20 °C, 50 %, UV 1), daily = one entry with sunrise 21600 and sunset 64800 | every row of the frame carries the first daily entry's sunrise and sunset, converted to the payload's zone | not executed; follows from pandas' documented scalar return type | Logic.ParseWeatherData, Logic.ScalarSunriseRaises | Logic.ParseWeatherDataIntended |

## Left out

- `create_unified_df` (logic/planner.py:8-49): pandas rolling means, group-by averages and merges over floating point are not modelled. Its hour-of-day step is the `Utils.ToAzHour` conversion.
- Time zones: pytz zones are fixed offsets. Daylight-saving transitions, and `localize` of ambiguous or non-existent wall times, are not modelled.
- Dates: they are day numbers. The "%Y-%m-%d" text is not produced or parsed, because formatting is one-to-one, so keying by text and by day number agree.
- Floating point: temperatures, humidity, UV, intakes and `to_az_hour` values are `real`. Rounding is not modelled.
- Clocks: `date.today()`, `datetime.now(city_tz)` and `datetime.now().strftime('%Y-%m-%d')` are parameters (`today`, `now`).
- Strptime digits: `\d` matches only ASCII digits here, while Python's regex also accepts other Unicode decimal digits.
- Strptime.ParseClock12: only one direction is proved for the 12-hour parser. Every well-formed text parses, and every result is a minute of the day. That nothing else parses is proved only for "%H:%M".
- Payloads: they are typed records. A missing key other than those named under the error cases is not modelled, nor is a value of the wrong JSON type. An empty hourly list is modelled, as the `KeyError` the source raises.
- Generator.GenerateMoveChecklistText: the profile is reduced to its "user_settings" dictionary of strings. It is `None` when absent. A non-dictionary "user_settings" (which raises `AttributeError`) is not modelled, nor is a non-string time value, which Python would format with `str()`.
- Generator.Upper: only ASCII letters are upper-cased. That covers the four section titles, the only text it is applied to.
- Checklist layout lemmas: they hold for any wording of the same shape. They are not instantiated with the long literal texts, whose character-by-character content the verifier would otherwise have to expand.
- UserProfiles.ProfileStore.GetProfileNames: the names come in an unspecified order. Python returns the dictionary's insertion order.
- JSON files: `json.load`/`json.dump` and the file system are abstracted. The file is the `file` field; read errors and malformed JSON are not modelled.
- Plotting, the Streamlit app, HTTP clients (`api_clients.py`), `config.py` and `logic/performance.py`: these are not part of this model.
