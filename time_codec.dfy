/**
 * Conversion between timezone-aware datetimes and Julian Day numbers
 * (`datetimeToJulianDay` and `julianDayToDatetime`).
 *
 * The Swiss Ephemeris conversions (`utc_to_jd`, `jdut1_to_utc`) and the
 * pytz timezone conversions are collaborators whose behaviour is not
 * modelled; they are passed in as functions.  A timezone conversion acts on
 * the whole-second civil time only: pytz offsets are whole minutes, so the
 * microsecond field passes through unchanged.
 */
module TimeCodec {
  import opened Wrappers

  datatype TimeZone = Utc | Zone(name: string)

  /** Calendar date and wall-clock time to the whole second. */
  datatype CivilTime = CivilTime(year: int, month: int, day: int, hour: int, minute: int, second: int)

  /** A `datetime.datetime`: civil time, microseconds and an optional tzinfo. */
  datatype DateTime = DateTime(time: CivilTime, microsecond: int, tzinfo: Option<TimeZone>)

  /** What `jdut1_to_utc` returns: whole calendar fields and a real-valued second. */
  datatype UtcReading = UtcReading(year: int, month: int, day: int, hour: int, minute: int, second: real)

  /** The ValueErrors of the time codec. */
  datatype TimeError =
    | TzInfoMissing                   // datetimeToJulianDay given a naive datetime
    | FieldOutOfRange(field: string)  // the datetime constructor rejected a field

  /** Converts local civil time in a zone to UTC (`normalize(astimezone(utc))`). */
  type ToUtc = (CivilTime, TimeZone) -> CivilTime
  /** Converts UTC civil time to a zone (`tz.normalize(astimezone(tz))`). */
  type FromUtc = (CivilTime, TimeZone) -> CivilTime
  /** `swe.utc_to_jd` on the Gregorian calendar: the pair (jd_et, jd_ut). */
  type UtcToJd = CivilTime -> (real, real)
  /** `swe.jdut1_to_utc` on the Gregorian calendar. */
  type JdToUtc = real -> UtcReading

  // ---------------------------------------------------------------------
  // The datetime constructor's range checks.

  predicate IsLeapYear(year: int) {
    year % 4 == 0 && (year % 100 != 0 || year % 400 == 0)
  }

  function DaysInMonth(year: int, month: int): (d: int)
    requires 1 <= month <= 12
    ensures 28 <= d <= 31
    ensures d == 29 <==> month == 2 && IsLeapYear(year)
    ensures month == 2 && !IsLeapYear(year) ==> d == 28
    ensures d == 30 <==> month in {4, 6, 9, 11}
  {
    if month == 2 then (if IsLeapYear(year) then 29 else 28)
    else if month in {4, 6, 9, 11} then 30
    else 31
  }

  /**
   * The fields the datetime constructor accepts.  The 29th of February
   * exists only in a leap year, the 31st only in a 31-day month.
   */
  predicate ValidCivil(t: CivilTime)
    ensures ValidCivil(t) ==> 1 <= t.month <= 12 && 1 <= t.day <= 31
    ensures ValidCivil(t) && t.month == 2 ==> t.day <= 29 && (t.day == 29 ==> IsLeapYear(t.year))
    ensures ValidCivil(t) && t.day == 31 ==> t.month in {1, 3, 5, 7, 8, 10, 12}
  {
    && 1 <= t.year <= 9999
    && 1 <= t.month <= 12
    && 1 <= t.day <= DaysInMonth(t.year, t.month)
    && 0 <= t.hour <= 23
    && 0 <= t.minute <= 59
    && 0 <= t.second <= 59
  }

  /**
   * `datetime.datetime(year, ..., microsecond, tzinfo)`: fails on the first
   * field, in argument order, that is out of range.
   */
  function NewDateTime(t: CivilTime, microsecond: int, tzinfo: Option<TimeZone>): (r: Result<DateTime, TimeError>)
    ensures r.Success? <==> ValidCivil(t) && 0 <= microsecond <= 999999
    ensures r.Success? ==> r.value == DateTime(t, microsecond, tzinfo)
    ensures ValidCivil(t) && !(0 <= microsecond <= 999999) ==> r == Failure(FieldOutOfRange("microsecond"))
  {
    if !(1 <= t.year <= 9999) then Failure(FieldOutOfRange("year"))
    else if !(1 <= t.month <= 12) then Failure(FieldOutOfRange("month"))
    else if !(1 <= t.day <= DaysInMonth(t.year, t.month)) then Failure(FieldOutOfRange("day"))
    else if !(0 <= t.hour <= 23) then Failure(FieldOutOfRange("hour"))
    else if !(0 <= t.minute <= 59) then Failure(FieldOutOfRange("minute"))
    else if !(0 <= t.second <= 59) then Failure(FieldOutOfRange("second"))
    else if !(0 <= microsecond <= 999999) then Failure(FieldOutOfRange("microsecond"))
    else Success(DateTime(t, microsecond, tzinfo))
  }

  // ---------------------------------------------------------------------
  // datetimeToJulianDay

  /**
   * Rejects a naive datetime; otherwise converts to UTC and hands only the
   * fields year..second to `utc_to_jd`, keeping the UT day number.
   */
  function DatetimeToJulianDay(dt: DateTime, toUtc: ToUtc, utcToJd: UtcToJd): (r: Result<real, TimeError>)
    ensures r.Failure? <==> dt.tzinfo.None?
    ensures r.Failure? ==> r.error == TzInfoMissing
    ensures r.Success? ==> r.value == utcToJd(toUtc(dt.time, dt.tzinfo.value)).1
  {
    if dt.tzinfo.None? then Failure(TzInfoMissing)
    else
      var dtUtc := toUtc(dt.time, dt.tzinfo.value);
      var (jdEt, jdUt) := utcToJd(dtUtc);
      Success(jdUt)
  }

  /** Two datetimes that differ only in their microseconds give the same day number. */
  lemma JulianDayIgnoresMicroseconds(dt: DateTime, microsecond: int, toUtc: ToUtc, utcToJd: UtcToJd)
    ensures DatetimeToJulianDay(dt.(microsecond := microsecond), toUtc, utcToJd)
         == DatetimeToJulianDay(dt, toUtc, utcToJd)
  {
  }

  // ---------------------------------------------------------------------
  // julianDayToDatetime

  /** Python's `int(x)` on a float: truncation toward zero. */
  function TruncateTowardZero(x: real): (n: int)
    ensures 0.0 <= x ==> 0 <= n && n as real <= x < n as real + 1.0
    ensures x < 0.0 ==> n <= 0 && n as real - 1.0 < x <= n as real
  {
    if x >= 0.0 then x.Floor else -((-x).Floor)
  }

  /** Python 3's `round(x)`: the nearest integer, ties to the even one. */
  function RoundHalfEven(x: real): (n: int)
    ensures -0.5 <= n as real - x <= 0.5
    ensures (n as real - x == 0.5 || x - n as real == 0.5) ==> n % 2 == 0
  {
    var f := x.Floor;
    var d := x - f as real;
    if d < 0.5 then f
    else if d > 0.5 then f + 1
    else if f % 2 == 0 then f
    else f + 1
  }

  /**
   * The split of a real-valued second into whole seconds and microseconds:
   * `secsTruncated = int(secs)`, `usecs = round((secs - secsTruncated) * 1e6)`.
   * The pair is within half a microsecond of `secs`; the microseconds reach
   * 1000000, which the datetime constructor rejects, exactly when the
   * fraction is at least 0.9999995.
   */
  function SplitSeconds(secs: real): (r: (int, int))
    ensures r.0 == TruncateTowardZero(secs)
    ensures -0.0000005 <= secs - (r.0 as real + r.1 as real / 1000000.0) <= 0.0000005
    ensures 0.0 <= secs ==> 0 <= r.1 <= 1000000
    ensures secs < 0.0 ==> -1000000 <= r.1 <= 0
    ensures r.1 == 1000000 <==> secs - r.0 as real >= 0.9999995
  {
    var secsTruncated := TruncateTowardZero(secs);
    var usecs := RoundHalfEven((secs - secsTruncated as real) * 1000000.0);
    (secsTruncated, usecs)
  }

  /**
   * The UTC civil time `julianDayToDatetime` builds from a reading, before
   * any range check: the calendar fields as read, and the second truncated
   * toward zero.
   */
  function ReadingToCivil(u: UtcReading): (t: CivilTime)
    ensures t.year == u.year && t.month == u.month && t.day == u.day
    ensures t.hour == u.hour && t.minute == u.minute
    ensures 0.0 <= u.second ==> 0 <= t.second && t.second as real <= u.second < t.second as real + 1.0
    ensures u.second < 0.0 ==> t.second <= 0 && t.second as real - 1.0 < u.second <= t.second as real
  {
    CivilTime(u.year, u.month, u.day, u.hour, u.minute, SplitSeconds(u.second).0)
  }

  /**
   * Converts the day number to a UTC reading, builds a UTC datetime from it
   * (which can fail the constructor's range checks) and converts that to
   * `tzInfo`, UTC unless another zone is given.
   */
  function JulianDayToDatetime(jd: real, jdToUtc: JdToUtc, fromUtc: FromUtc, tzInfo: TimeZone := Utc): (r: Result<DateTime, TimeError>)
    ensures r.Success? <==>
      ValidCivil(ReadingToCivil(jdToUtc(jd))) && 0 <= SplitSeconds(jdToUtc(jd).second).1 <= 999999
    ensures r.Success? ==>
      && r.value.tzinfo == Some(tzInfo)
      && r.value.time == fromUtc(ReadingToCivil(jdToUtc(jd)), tzInfo)
      && r.value.microsecond == SplitSeconds(jdToUtc(jd).second).1
  {
    var u := jdToUtc(jd);
    var (secsTruncated, usecs) := SplitSeconds(u.second);
    var dtUtc :- NewDateTime(CivilTime(u.year, u.month, u.day, u.hour, u.minute, secsTruncated), usecs, Some(Utc));
    Success(DateTime(fromUtc(dtUtc.time, tzInfo), dtUtc.microsecond, Some(tzInfo)))
  }

  /**
   * A reading whose fraction of a second is at least 0.9999995 rounds to
   * 1000000 microseconds, and the conversion fails whatever the other fields.
   */
  lemma MicrosecondRoundUpFails(jd: real, tzInfo: TimeZone, jdToUtc: JdToUtc, fromUtc: FromUtc)
    requires jdToUtc(jd).second - TruncateTowardZero(jdToUtc(jd).second) as real >= 0.9999995
    ensures JulianDayToDatetime(jd, jdToUtc, fromUtc, tzInfo).Failure?
  {
  }

  /**
   * When the conversion succeeds, the reading's second lay in
   * [-0.0000005, 59.9999995) (a second just below zero truncates to 0 and
   * rounds to 0 microseconds), and the UTC second and microseconds are
   * within half a microsecond of it.
   */
  lemma ConversionPrecision(jd: real, tzInfo: TimeZone, jdToUtc: JdToUtc, fromUtc: FromUtc)
    requires JulianDayToDatetime(jd, jdToUtc, fromUtc, tzInfo).Success?
    ensures var u := jdToUtc(jd);
            var dt := JulianDayToDatetime(jd, jdToUtc, fromUtc, tzInfo).value;
            && -0.0000005 <= u.second < 59.9999995
            && -0.0000005 <= u.second - (ReadingToCivil(u).second as real + dt.microsecond as real / 1000000.0) <= 0.0000005
  {
  }

  /**
   * Datetime to day number and back: when the timezone conversions are
   * inverse on the datetime's UTC time and `jdut1_to_utc` reads back the
   * UTC fields `utc_to_jd` was given, the datetime comes back in its own
   * zone with its microseconds dropped.
   */
  lemma DatetimeRoundTrip(dt: DateTime, toUtc: ToUtc, utcToJd: UtcToJd, jdToUtc: JdToUtc, fromUtc: FromUtc)
    requires dt.tzinfo.Some?
    requires var u := toUtc(dt.time, dt.tzinfo.value);
      && ValidCivil(u)
      && jdToUtc(utcToJd(u).1) == UtcReading(u.year, u.month, u.day, u.hour, u.minute, u.second as real)
      && fromUtc(u, dt.tzinfo.value) == dt.time
    ensures JulianDayToDatetime(DatetimeToJulianDay(dt, toUtc, utcToJd).value, jdToUtc, fromUtc, dt.tzinfo.value)
         == Success(dt.(microsecond := 0))
  {
    var u := toUtc(dt.time, dt.tzinfo.value);
    assert SplitSeconds(u.second as real) == (u.second, 0);
  }

  /**
   * Day number to datetime and back: when the conversion succeeds and the
   * timezone conversions are inverse on its UTC time, the day number that
   * comes back is the one of the reading with its second truncated.
   */
  lemma JulianDayRoundTrip(jd: real, jdToUtc: JdToUtc, fromUtc: FromUtc, tzInfo: TimeZone, toUtc: ToUtc, utcToJd: UtcToJd)
    requires JulianDayToDatetime(jd, jdToUtc, fromUtc, tzInfo).Success?
    requires var c := ReadingToCivil(jdToUtc(jd)); toUtc(fromUtc(c, tzInfo), tzInfo) == c
    ensures DatetimeToJulianDay(JulianDayToDatetime(jd, jdToUtc, fromUtc, tzInfo).value, toUtc, utcToJd)
         == Success(utcToJd(ReadingToCivil(jdToUtc(jd))).1)
  {
  }
}
