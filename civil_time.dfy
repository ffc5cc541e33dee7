/** The stock quote's `timestamp` (Unix epoch seconds) rendered as UTC text of
    the form YYYY-MM-DDTHH:MM:SS.000Z, the date-time format of section 5.6 of
    RFC 3339. gmtime is modelled as a pure days-to-civil-date conversion in
    the proleptic Gregorian calendar; strftime as fixed-width digit fields. */
module CivilTime {
  import opened Text
  import opened Wrappers

  const EPOCH_YEAR: int := 1970
  const SECONDS_PER_DAY: int := 86400

  /** Days before the first of each month in a common year. */
  const CUMULATIVE_DAYS: seq<int> := [0, 31, 59, 90, 120, 151, 181, 212, 243, 273, 304, 334]

  /** A broken-down UTC time, as gmtime fills `struct tm` (month and day 1-based). */
  datatype DateTime = DateTime(year: int, month: int, day: int, hour: int, minute: int, second: int)

  predicate IsLeap(y: int) {
    y % 4 == 0 && (y % 100 != 0 || y % 400 == 0)
  }

  function DaysInYear(y: int): int {
    if IsLeap(y) then 366 else 365
  }

  function DaysInMonth(y: int, m: int): int
    requires 1 <= m <= 12
  {
    if m == 2 then (if IsLeap(y) then 29 else 28)
    else if m == 4 || m == 6 || m == 9 || m == 11 then 30
    else 31
  }

  function DaysBeforeMonth(y: int, m: int): int
    requires 1 <= m <= 12
  {
    CUMULATIVE_DAYS[m - 1] + (if m > 2 && IsLeap(y) then 1 else 0)
  }

  /** Days from 1970-01-01 to the first of January of year y. */
  function DaysBeforeYear(y: int): nat
    requires y >= EPOCH_YEAR
    decreases y - EPOCH_YEAR
  {
    if y == EPOCH_YEAR then 0 else DaysBeforeYear(y - 1) + DaysInYear(y - 1)
  }

  /** A calendar-correct UTC time. */
  predicate Valid(dt: DateTime) {
    && dt.year >= EPOCH_YEAR
    && 1 <= dt.month <= 12
    && 1 <= dt.day <= DaysInMonth(dt.year, dt.month)
    && 0 <= dt.hour < 24
    && 0 <= dt.minute < 60
    && 0 <= dt.second < 60
  }

  /** Seconds since the epoch of a valid UTC time (the inverse of gmtime). */
  function ToEpoch(dt: DateTime): int
    requires Valid(dt)
  {
    (DaysBeforeYear(dt.year) + DaysBeforeMonth(dt.year, dt.month) + dt.day - 1) * SECONDS_PER_DAY
      + dt.hour * 3600 + dt.minute * 60 + dt.second
  }

  /** Walks forward whole years from year y: the year holding the given day
      count and the day's 0-based index within that year. */
  function YearFrom(y: int, days: nat): (r: (int, nat))
    requires y >= EPOCH_YEAR
    ensures y <= r.0
    ensures r.1 < DaysInYear(r.0)
    ensures DaysBeforeYear(r.0) + r.1 == DaysBeforeYear(y) + days
    ensures r.0 <= y + days / 365
    decreases days
  {
    if days < DaysInYear(y) then (y, days)
    else YearFrom(y + 1, days - DaysInYear(y))
  }

  /** Walks forward whole months from month m of year y: the month holding the
      0-based day index d (counted from the first of month m) and the 1-based
      day of that month. */
  function MonthFrom(y: int, m: int, d: nat): (r: (int, int))
    requires 1 <= m <= 12
    requires d < DaysInYear(y) - DaysBeforeMonth(y, m)
    ensures m <= r.0 <= 12
    ensures 1 <= r.1 <= DaysInMonth(y, r.0)
    ensures DaysBeforeMonth(y, r.0) + r.1 - 1 == DaysBeforeMonth(y, m) + d
    decreases 12 - m
  {
    if d < DaysInMonth(y, m) then (m, d + 1)
    else MonthFrom(y, m + 1, d - DaysInMonth(y, m))
  }

  /** gmtime: the UTC calendar time of t seconds after the epoch. */
  function Gmtime(t: nat): (dt: DateTime)
    ensures Valid(dt)
  {
    var days, secs := t / SECONDS_PER_DAY, t % SECONDS_PER_DAY;
    var (year, dayOfYear) := YearFrom(EPOCH_YEAR, days);
    var (month, day) := MonthFrom(year, 1, dayOfYear);
    DateTime(year, month, day, secs / 3600, secs % 3600 / 60, secs % 60)
  }

  /** gmtime loses nothing: the broken-down time names exactly the instant t. */
  lemma GmtimeRoundTrip(t: nat)
    ensures ToEpoch(Gmtime(t)) == t
  {
    var days, secs := t / SECONDS_PER_DAY, t % SECONDS_PER_DAY;
    var (year, dayOfYear) := YearFrom(EPOCH_YEAR, days);
    var (month, day) := MonthFrom(year, 1, dayOfYear);
    assert DaysBeforeYear(year) + DaysBeforeMonth(year, month) + day - 1 == days;
    assert secs / 3600 * 3600 + secs % 3600 / 60 * 60 + secs % 60 == secs;
  }

  /** Every 32-bit timestamp falls in a year with four digits. */
  lemma GmtimeYearOfU32(t: U32)
    ensures Gmtime(t).year <= 2106
  {
    var days := t / SECONDS_PER_DAY;
    assert days <= 49710;
    assert YearFrom(EPOCH_YEAR, days).0 <= EPOCH_YEAR + days / 365;
  }

  /** The %Y-%m-%d part. */
  function DatePart(dt: DateTime): (s: string)
    requires 0 <= dt.year < 10000 && 0 <= dt.month && 0 <= dt.day
    ensures |s| == 10 && s[4] == '-' && s[7] == '-'
    ensures s[0..4] == Pad(dt.year, 4) && s[5..7] == Pad(dt.month, 2) && s[8..10] == Pad(dt.day, 2)
  {
    Pad(dt.year, 4) + "-" + Pad(dt.month, 2) + "-" + Pad(dt.day, 2)
  }

  /** The %H:%M:%S part. */
  function TimePart(dt: DateTime): (s: string)
    requires 0 <= dt.hour && 0 <= dt.minute && 0 <= dt.second
    ensures |s| == 8 && s[2] == ':' && s[5] == ':'
    ensures s[0..2] == Pad(dt.hour, 2) && s[3..5] == Pad(dt.minute, 2) && s[6..8] == Pad(dt.second, 2)
  {
    Pad(dt.hour, 2) + ":" + Pad(dt.minute, 2) + ":" + Pad(dt.second, 2)
  }

  /** strftime "%Y-%m-%dT%H:%M:%S.000Z" of a broken-down time. */
  function FormatIso(dt: DateTime): (s: string)
    requires 0 <= dt.year < 10000
    requires 0 <= dt.month && 0 <= dt.day && 0 <= dt.hour && 0 <= dt.minute && 0 <= dt.second
    ensures |s| == 24
  {
    DatePart(dt) + "T" + TimePart(dt) + ".000Z"
  }

  /** The fixed shape YYYY-MM-DDTHH:MM:SS.000Z: 24 characters, digits in the
      numeric fields and the separators in between. */
  predicate IsIsoShape(s: string) {
    && |s| == 24
    && AllDigits(s[0..4]) && s[4] == '-' && AllDigits(s[5..7]) && s[7] == '-'
    && AllDigits(s[8..10]) && s[10] == 'T' && AllDigits(s[11..13]) && s[13] == ':'
    && AllDigits(s[14..16]) && s[16] == ':' && AllDigits(s[17..19]) && s[19..] == ".000Z"
  }

  /** Reads a timestamp of that shape back into its fields. */
  function ParseIso(s: string): Option<DateTime>
  {
    if IsIsoShape(s) then
      Some(DateTime(ParseDigits(s[0..4]), ParseDigits(s[5..7]), ParseDigits(s[8..10]),
                    ParseDigits(s[11..13]), ParseDigits(s[14..16]), ParseDigits(s[17..19])))
    else None
  }

  /** The text has the fixed shape and reads back as the time it was made from. */
  lemma FormatIsoRoundTrip(dt: DateTime)
    requires Valid(dt) && dt.year < 10000
    ensures IsIsoShape(FormatIso(dt))
    ensures ParseIso(FormatIso(dt)) == Some(dt)
  {
    var s, date, time := FormatIso(dt), DatePart(dt), TimePart(dt);
    assert s[0..10] == date && s[10] == 'T' && s[11..19] == time && s[19..] == ".000Z";
    assert s[0..4] == date[0..4] && s[5..7] == date[5..7] && s[8..10] == date[8..10];
    assert s[11..13] == time[0..2] && s[14..16] == time[3..5] && s[17..19] == time[6..8];
    assert Pow10(4) == 10000 && Pow10(2) == 100;
    PadRoundTrip(dt.year, 4);
    PadRoundTrip(dt.month, 2);
    PadRoundTrip(dt.day, 2);
    PadRoundTrip(dt.hour, 2);
    PadRoundTrip(dt.minute, 2);
    PadRoundTrip(dt.second, 2);
  }

  /** The stock timestamp text for epoch seconds t (parseStockJsonResponse). */
  function EpochToIso(t: U32): (s: string)
    ensures |s| == 24 && IsIsoShape(s)
  {
    GmtimeYearOfU32(t);
    FormatIsoRoundTrip(Gmtime(t));
    FormatIso(Gmtime(t))
  }

  /** The rendered text determines the timestamp: parsing it and converting
      back to epoch seconds gives t again. */
  lemma EpochToIsoRoundTrip(t: U32)
    ensures ParseIso(EpochToIso(t)) == Some(Gmtime(t))
    ensures ToEpoch(ParseIso(EpochToIso(t)).value) == t
  {
    GmtimeYearOfU32(t);
    FormatIsoRoundTrip(Gmtime(t));
    GmtimeRoundTrip(t);
  }

  /** Two different timestamps never render as the same text. */
  lemma EpochToIsoInjective(t1: U32, t2: U32)
    requires EpochToIso(t1) == EpochToIso(t2)
    ensures t1 == t2
  {
    EpochToIsoRoundTrip(t1);
    EpochToIsoRoundTrip(t2);
  }
}
