/**
 * Time as the dashboard uses it, reduced to integers.
 *
 * An instant is a count of seconds since the Unix epoch (UTC).  A time zone
 * is a fixed offset in minutes east of UTC; America/Phoenix, the home zone
 * of the routine, is UTC-7 all year.  A `ZonedTime` stands for a pytz-aware
 * `datetime`: an absolute instant together with the zone it is shown in.
 * Calendar dates are day numbers (days since 1970-01-01).
 */
module Clock {

  /** Minutes east of UTC. */
  type Offset = int

  /** America/Phoenix: UTC-7, no daylight-saving time. */
  const Phoenix: Offset := -420

  const SecondsPerDay: int := 86400
  const MinutesPerDay: int := 1440

  datatype ZonedTime = ZonedTime(instant: int, offset: Offset)

  /** The wall-clock reading in the time's own zone, as seconds since the local epoch. */
  function WallSeconds(t: ZonedTime): int
  {
    t.instant + 60 * t.offset
  }

  /** The local calendar date (`t.date()`), as a day number. */
  function LocalDate(t: ZonedTime): int
  {
    WallSeconds(t) / SecondsPerDay
  }

  /** Seconds since local midnight. */
  function SecondOfDay(t: ZonedTime): (r: int)
    ensures 0 <= r < SecondsPerDay
  {
    WallSeconds(t) % SecondsPerDay
  }

  /** `t.hour` */
  function HourOf(t: ZonedTime): (h: int)
    ensures 0 <= h < 24
  {
    SecondOfDay(t) / 3600
  }

  /** `t.minute` */
  function MinuteOf(t: ZonedTime): (m: int)
    ensures 0 <= m < 60
  {
    SecondOfDay(t) % 3600 / 60
  }

  /**
   * `t.astimezone(z)`: the same instant, shown in zone `z`; the wall clock
   * moves by the difference of the two offsets.
   */
  function AsTimeZone(t: ZonedTime, z: Offset): (r: ZonedTime)
    ensures r.instant == t.instant && r.offset == z
    ensures WallSeconds(r) == WallSeconds(t) + 60 * (z - t.offset)
  {
    ZonedTime(t.instant, z)
  }

  /**
   * `t + timedelta(seconds=s)`: the zone is kept, and both the instant and
   * the wall clock move by `s` (a fixed offset has no transitions to cross).
   */
  function AddSeconds(t: ZonedTime, s: int): (r: ZonedTime)
    ensures r.offset == t.offset && r.instant == t.instant + s
    ensures WallSeconds(r) == WallSeconds(t) + s
  {
    ZonedTime(t.instant + s, t.offset)
  }

  /**
   * `z.localize(datetime.combine(date, time))` for a fixed-offset zone:
   * the instant whose wall clock in `z` reads `minuteOfDay` on `date`.
   */
  function Localize(date: int, minuteOfDay: int, z: Offset): (t: ZonedTime)
    requires 0 <= minuteOfDay < MinutesPerDay
    ensures t.offset == z
    ensures LocalDate(t) == date
    ensures SecondOfDay(t) == 60 * minuteOfDay
    ensures HourOf(t) == minuteOfDay / 60 && MinuteOf(t) == minuteOfDay % 60
  {
    var t := ZonedTime(date * SecondsPerDay + 60 * minuteOfDay - 60 * z, z);
    assert WallSeconds(t) == date * SecondsPerDay + 60 * minuteOfDay;
    t
  }

  /**
   * Re-expressing a time anchored in one zone in another zone moves its
   * clock reading by the difference of the offsets, modulo one day.
   */
  lemma {:induction false} ConvertedClock(date: int, minuteOfDay: int, from: Offset, to: Offset)
    requires 0 <= minuteOfDay < MinutesPerDay
    ensures SecondOfDay(AsTimeZone(Localize(date, minuteOfDay, from), to))
         == 60 * ((minuteOfDay + to - from) % MinutesPerDay)
  {
    var t := AsTimeZone(Localize(date, minuteOfDay, from), to);
    var x := date * MinutesPerDay + minuteOfDay + to - from;
    assert WallSeconds(t) == 60 * x;
    ModOfScaled(x);
    DayShift(date, minuteOfDay + to - from);
  }

  /** `(60 x) mod 86400 == 60 (x mod 1440)` */
  lemma ModOfScaled(x: int)
    ensures (60 * x) % SecondsPerDay == 60 * (x % MinutesPerDay)
  {
    var q, r := x / MinutesPerDay, x % MinutesPerDay;
    assert x == q * MinutesPerDay + r && 0 <= r < MinutesPerDay;
    assert 60 * x == q * SecondsPerDay + 60 * r;
  }

  /** Whole days do not change a clock reading. */
  lemma DayShift(date: int, m: int)
    ensures (date * MinutesPerDay + m) % MinutesPerDay == m % MinutesPerDay
  {
    var q, r := m / MinutesPerDay, m % MinutesPerDay;
    assert date * MinutesPerDay + m == (date + q) * MinutesPerDay + r;
  }
}
