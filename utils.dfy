/** `logic/utils.py`: instants as fractional hours on the Phoenix clock. */
module Utils {
  import opened Clock

  /**
   * `to_az_hour`: the Phoenix wall-clock hour plus the minute as a fraction
   * of an hour.  Seconds are dropped; the zone the time is shown in does not
   * matter, only its instant.
   */
  function ToAzHour(t: ZonedTime): (r: real)
    ensures 0.0 <= r < 24.0
  {
    var az := AsTimeZone(t, Phoenix);
    HourOf(az) as real + MinuteOf(az) as real / 60.0
  }

  /** Sixty times the result is the whole minute of the Phoenix day. */
  lemma ToAzHourIsMinuteOfDay(t: ZonedTime)
    ensures ToAzHour(t) * 60.0 == (SecondOfDay(AsTimeZone(t, Phoenix)) / 60) as real
  {
    var s := SecondOfDay(AsTimeZone(t, Phoenix));
    assert s / 60 == 60 * (s / 3600) + s % 3600 / 60;
  }

  /** Only the instant counts, not the zone it is expressed in. */
  lemma ToAzHourIgnoresZone(t: ZonedTime, z: Offset)
    ensures ToAzHour(AsTimeZone(t, z)) == ToAzHour(t)
  {
  }

  /** Two instants in the same minute (instants are seconds) give the same value. */
  lemma {:induction false} ToAzHourDropsSeconds(t: ZonedTime, u: ZonedTime)
    requires t.instant / 60 == u.instant / 60
    ensures ToAzHour(t) == ToAzHour(u)
  {
    MinuteOfDayFromMinutes(t.instant);
    MinuteOfDayFromMinutes(u.instant);
    ToAzHourIsMinuteOfDay(t);
    ToAzHourIsMinuteOfDay(u);
  }

  /** The Phoenix minute of the day depends only on the instant's whole minutes. */
  lemma MinuteOfDayFromMinutes(instant: int)
    ensures SecondOfDay(AsTimeZone(ZonedTime(instant, 0), Phoenix)) / 60
         == (instant / 60 - 420) % MinutesPerDay
  {
    var q, r := instant / 60, instant % 60;
    var w := instant - 25200;
    assert w == 60 * (q - 420) + r;
    var d, e := (q - 420) / MinutesPerDay, (q - 420) % MinutesPerDay;
    assert w == d * SecondsPerDay + (60 * e + r);
    assert 0 <= 60 * e + r < SecondsPerDay;
    assert w % SecondsPerDay == 60 * e + r;
  }
}
