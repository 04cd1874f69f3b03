/**
 * The rows of the pandas frames that the core passes around.
 */
module Frames {
  import opened Clock

  /**
   * One row of a city's weather frame: the index `Time` and the columns
   * "Temperature (°C)", "Humidity (%)", "UV Index", "sunrise" and "sunset".
   */
  datatype WeatherRow = WeatherRow(
    time: ZonedTime,
    temperature: real,
    humidity: real,
    uv: real,
    sunrise: ZonedTime,
    sunset: ZonedTime)

  /** A weather frame: its rows and the zone of its index (`df.index.tz`). */
  datatype CityFrame = CityFrame(zone: Offset, rows: seq<WeatherRow>)

  /** A row of a routine or Gantt frame: the columns Task, Start, Finish and Resource. */
  datatype ChartTask = ChartTask(task: string, start: ZonedTime, finish: ZonedTime, resource: string)

  /** The length of a task in seconds (`Finish - Start`). */
  function Duration(c: ChartTask): int
  {
    c.finish.instant - c.start.instant
  }
}
