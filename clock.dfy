/**
 * Time as the dashboard sees it: instants are JavaScript millisecond
 * timestamps, and the browser's local calendar is a fixed offset from UTC.
 * Day boundaries, the weekday (`getDay()`, Sunday = 0) and the day of the
 * month (`getDate()`) are computed from the local day number.
 */
module Clock {

  /** Milliseconds since the epoch. */
  type Time = int

  const HOUR_MS: int := 3600000
  const DAY_MS: int := 86400000

  /** The local time zone, as a fixed offset from UTC in milliseconds. */
  datatype Zone = Zone(offsetMs: int)

  /** Number of the local calendar day holding `t`; day 0 is 1970-01-01. */
  function DayNumber(z: Zone, t: Time): int
  {
    (t + z.offsetMs) / DAY_MS
  }

  /** `setHours(0, 0, 0, 0)`: the instant at which the local day of `t` begins. */
  function StartOfDay(z: Zone, t: Time): (r: Time)
    ensures r <= t < r + DAY_MS
    ensures DayNumber(z, r) == DayNumber(z, t)
  {
    DayNumber(z, t) * DAY_MS - z.offsetMs
  }

  /** Two instants fall on the same local calendar day exactly when their days begin together. */
  lemma SameDayIffSameStart(z: Zone, t: Time, u: Time)
    ensures DayNumber(z, t) == DayNumber(z, u) <==> StartOfDay(z, t) == StartOfDay(z, u)
  {
  }

  /** `getHours()`: the local hour of `t`. */
  function HourOf(z: Zone, t: Time): (h: int)
    ensures 0 <= h < 24
  {
    ((t + z.offsetMs) % DAY_MS) / HOUR_MS
  }

  /** `getDay()`: 0 = Sunday ... 6 = Saturday; 1970-01-01 was a Thursday. */
  function Weekday(z: Zone, t: Time): (r: int)
    ensures 0 <= r < 7
  {
    (DayNumber(z, t) + 4) % 7
  }

  /** The next day is one day number, and one weekday, further on. */
  lemma NextDay(z: Zone, t: Time)
    ensures DayNumber(z, t + DAY_MS) == DayNumber(z, t) + 1
    ensures Weekday(z, t + DAY_MS) == (Weekday(z, t) + 1) % 7
  {
    var x := t + z.offsetMs;
    assert x == DAY_MS * (x / DAY_MS) + x % DAY_MS;
    assert x + DAY_MS == DAY_MS * (x / DAY_MS + 1) + x % DAY_MS;
  }

  /**
   * `getDate()`: the day of the month of local day number `d` in the proleptic
   * Gregorian calendar (civil-from-days conversion with a March-based year).
   */
  function DayOfMonthOfDay(d: int): int
  {
    var z := d + 719468;
    var era := z / 146097;
    var doe := z - era * 146097;
    var yoe := (doe - doe / 1460 + doe / 36524 - doe / 146096) / 365;
    var doy := doe - (365 * yoe + yoe / 4 - yoe / 100);
    var mp := (5 * doy + 2) / 153;
    doy - (153 * mp + 2) / 5 + 1
  }

  function DayOfMonth(z: Zone, t: Time): int
  {
    DayOfMonthOfDay(DayNumber(z, t))
  }

  /** 1970-01-05 and 1970-02-05 are both the 5th of their month. */
  lemma FifthOfJanuaryAndFebruary()
    ensures DayOfMonthOfDay(4) == 5 && DayOfMonthOfDay(35) == 5
  {
    assert 719472 / 146097 == 4 && 719503 / 146097 == 4;
    assert 135084 / 1460 == 92 && 135084 / 36524 == 3 && 135084 / 146096 == 0;
    assert 135115 / 1460 == 92 && 135115 / 36524 == 3 && 135115 / 146096 == 0;
    assert 134995 / 365 == 369 && 135026 / 365 == 369 && 369 / 4 == 92 && 369 / 100 == 3;
    assert 1552 / 153 == 10 && 1532 / 5 == 306;
    assert 1707 / 153 == 11 && 1685 / 5 == 337;
  }
}
