/** Calendar fields of an instant, as JavaScript's `Date` getters give them.
    An instant is a whole number of seconds since 1970-01-01T00:00:00; the local
    time zone is taken to be UTC and daylight-saving shifts are not modelled. */
module Calendar {

  const SecondsPerDay: int := 86400
  const SecondsPerHour: int := 3600

  /** Days since 1970-01-01 of the day containing `t` (rounded down, also before 1970). */
  function DayNumber(t: int): int { t / SecondsPerDay }

  /** `date.getHours()`. */
  function Hours(t: int): (h: int)
    ensures 0 <= h < 24
  {
    (t % SecondsPerDay) / SecondsPerHour
  }

  /** A proleptic Gregorian date; `month` runs from 1 (January) to 12. */
  datatype Civil = Civil(year: int, month: int, day: int)

  /** Splits a day of a 400-year era (eras start on 1 March of a year divisible
      by 400) into the year of the era and the day of that March-based year,
      counting centuries, four-year groups and years. */
  function YearOfEra(doe: int): (yd: (int, int))
    requires 0 <= doe < 146097
    ensures 0 <= yd.0 < 400 && 0 <= yd.1 <= 365
    ensures doe == yd.0 * 365 + yd.0 / 4 - yd.0 / 100 + yd.1
  {
    var cen := if doe / 36524 < 3 then doe / 36524 else 3;
    var doc := doe - 36524 * cen;
    var quad := doc / 1461;
    var doq := doc - 1461 * quad;
    var y := if doq / 365 < 3 then doq / 365 else 3;
    var yoe := 100 * cen + 4 * quad + y;
    assert yoe / 4 == 25 * cen + quad;
    assert yoe / 100 == cen;
    (yoe, doq - 365 * y)
  }

  /** The March-based month index of a month (March is 0, February 11). */
  function MarchIndex(month: int): int
  {
    if month > 2 then month - 3 else month + 9
  }

  /** Splits a day of a March-based year into a calendar month and day. */
  function MonthDay(doy: int): (md: (int, int))
    requires 0 <= doy <= 365
    ensures 1 <= md.0 <= 12 && 1 <= md.1 <= 31
    ensures doy == (153 * MarchIndex(md.0) + 2) / 5 + md.1 - 1
  {
    var mp := (5 * doy + 2) / 153;
    (if mp < 10 then mp + 3 else mp - 9, doy - (153 * mp + 2) / 5 + 1)
  }

  /** The date of day number `days` (days since 1970-01-01). */
  function CivilFromDays(days: int): (c: Civil)
    ensures 1 <= c.month <= 12 && 1 <= c.day <= 31
  {
    var z := days + 719468;
    var yd := YearOfEra(z % 146097);
    var md := MonthDay(yd.1);
    Civil((z / 146097) * 400 + yd.0 + (if md.0 <= 2 then 1 else 0), md.0, md.1)
  }

  /** The day number of a date: the inverse of `CivilFromDays`. */
  function DaysFromCivil(c: Civil): int
  {
    var y := c.year - (if c.month <= 2 then 1 else 0);
    var era := y / 400;
    var yoe := y - era * 400;
    var doy := (153 * MarchIndex(c.month) + 2) / 5 + c.day - 1;
    era * 146097 + yoe * 365 + yoe / 4 - yoe / 100 + doy - 719468
  }

  lemma EraDiv(era: int, yoe: int)
    requires 0 <= yoe < 400
    ensures (era * 400 + yoe) / 400 == era
    ensures (era * 400 + yoe) - ((era * 400 + yoe) / 400) * 400 == yoe
  {
  }

  /** The date built from an era, a year of the era and a day of the March-based
      year counts back to the same days. */
  lemma DaysFromParts(era: int, yoe: int, doy: int)
    requires 0 <= yoe < 400 && 0 <= doy <= 365
    ensures var md := MonthDay(doy);
      DaysFromCivil(Civil(era * 400 + yoe + (if md.0 <= 2 then 1 else 0), md.0, md.1))
        == era * 146097 + yoe * 365 + yoe / 4 - yoe / 100 + doy - 719468
  {
    var md := MonthDay(doy);
    var c := Civil(era * 400 + yoe + (if md.0 <= 2 then 1 else 0), md.0, md.1);
    var y := c.year - (if c.month <= 2 then 1 else 0);
    assert y == era * 400 + yoe;
    EraDiv(era, yoe);
  }

  /** The date of day `days`, by era, year of the era and day of the year. */
  lemma CivilFromDaysParts(days: int)
    ensures var z := days + 719468;
      var yd := YearOfEra(z % 146097);
      var md := MonthDay(yd.1);
      CivilFromDays(days) == Civil((z / 146097) * 400 + yd.0 + (if md.0 <= 2 then 1 else 0), md.0, md.1)
  {
  }

  /** Converting a day number to a date and back gives the day number again. */
  lemma CivilRoundTrip(days: int)
    ensures DaysFromCivil(CivilFromDays(days)) == days
  {
    var z := days + 719468;
    var era := z / 146097;
    var doe := z % 146097;
    var yd := YearOfEra(doe);
    var md := MonthDay(yd.1);
    CivilFromDaysParts(days);
    DaysFromParts(era, yd.0, yd.1);
    calc {
      DaysFromCivil(CivilFromDays(days));
      DaysFromCivil(Civil(era * 400 + yd.0 + (if md.0 <= 2 then 1 else 0), md.0, md.1));
      era * 146097 + yd.0 * 365 + yd.0 / 4 - yd.0 / 100 + yd.1 - 719468;
      era * 146097 + doe - 719468;
      days;
    }
  }

  /** Two instants on different days never share a date. */
  lemma CivilInjective(a: int, b: int)
    requires CivilFromDays(a) == CivilFromDays(b)
    ensures a == b
  {
    CivilRoundTrip(a);
    CivilRoundTrip(b);
  }

  /** `date.getMonth()`: 0 for January up to 11 for December. */
  function Month(t: int): (m: int)
    ensures 0 <= m < 12
  {
    CivilFromDays(DayNumber(t)).month - 1
  }

  /** `date.getDate()`: the day of the month. */
  function Date(t: int): (d: int)
    ensures 1 <= d <= 31
  {
    CivilFromDays(DayNumber(t)).day
  }

  /** `date.getFullYear()`. */
  function FullYear(t: int): int
  {
    CivilFromDays(DayNumber(t)).year
  }

  /** `date.getDay()`: 0 for Sunday up to 6 for Saturday (1970-01-01 was a Thursday). */
  function Weekday(t: int): (w: int)
    ensures 0 <= w < 7
  {
    (DayNumber(t) + 4) % 7
  }

  /** The instant `date.setHours(h, m, s)` gives: the same day at `h:m:s`. */
  function SetHours(t: int, h: int, m: int, s: int): int
  {
    DayNumber(t) * SecondsPerDay + h * SecondsPerHour + m * 60 + s
  }

  /** `date.setDate(date.getDate() + n)`: the same time of day, `n` days later. */
  function AddDays(t: int, n: int): int
  {
    t + n * SecondsPerDay
  }

  /** Moving to another time of the same day keeps the day, and the hour is the one set. */
  lemma SetHoursSameDay(t: int, h: int, m: int, s: int)
    requires 0 <= h < 24 && 0 <= m < 60 && 0 <= s < 60
    ensures DayNumber(SetHours(t, h, m, s)) == DayNumber(t)
    ensures Hours(SetHours(t, h, m, s)) == h
    ensures SetHours(t, 0, 0, 0) <= SetHours(t, h, m, s) <= SetHours(t, 23, 59, 59)
  {
    var d := DayNumber(t);
    var off := h * SecondsPerHour + m * 60 + s;
    assert 0 <= off < SecondsPerDay;
    assert SetHours(t, h, m, s) == d * SecondsPerDay + off;
    assert (d * SecondsPerDay + off) / SecondsPerDay == d;
    assert (d * SecondsPerDay + off) % SecondsPerDay == off;
  }

  lemma AddDaysDayNumber(t: int, n: int)
    ensures DayNumber(AddDays(t, n)) == DayNumber(t) + n
  {
    var d := DayNumber(t);
    var r := t % SecondsPerDay;
    assert t == d * SecondsPerDay + r;
    assert AddDays(t, n) == (d + n) * SecondsPerDay + r;
  }

  /** Day, month and year agree exactly when the two instants fall on the same day. */
  lemma SameDateIffSameDay(a: int, b: int)
    ensures (Date(a) == Date(b) && Month(a) == Month(b) && FullYear(a) == FullYear(b))
            <==> DayNumber(a) == DayNumber(b)
  {
    if Date(a) == Date(b) && Month(a) == Month(b) && FullYear(a) == FullYear(b) {
      CivilInjective(DayNumber(a), DayNumber(b));
    }
  }
}
