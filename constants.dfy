/** The dashboard's name tables: weekdays, months, their abbreviations, and
    the short labels of the 24 hours of a day. */
module Constants {
  import opened Text

  /** `daysOfWeek`, indexed by `date.getDay()`. */
  const DaysOfWeek: seq<string> :=
    ["Sunday", "Monday", "Tuesday", "Wednesday", "Thursday", "Friday", "Saturday"]

  /** `monthNames`, indexed by `date.getMonth()`. */
  const MonthNames: seq<string> :=
    ["January", "February", "March", "April", "May", "June", "July",
     "August", "September", "October", "November", "December"]

  /** `names.map((m) => m.slice(0, n))`. */
  function TakeEach(names: seq<string>, n: nat): (r: seq<string>)
    ensures |r| == |names|
    ensures forall i :: 0 <= i < |names| ==> r[i] == Take(names[i], n)
  {
    if names == [] then [] else [Take(names[0], n)] + TakeEach(names[1..], n)
  }

  /** `abbrevDaysOfWeek`. */
  const AbbrevDaysOfWeek: seq<string> := TakeEach(DaysOfWeek, 3)

  /** `abbrevMonthNames`. */
  const AbbrevMonthNames: seq<string> := TakeEach(MonthNames, 3)

  /** `superAbbrevMonthNames`. */
  const SuperAbbrevMonthNames: seq<string> := TakeEach(MonthNames, 1)

  /** `hourlyPeriods`, indexed by `date.getHours()`. */
  const HourlyPeriods: seq<string> :=
    ["12a", "1a", "2a", "3a", "4a", "5a", "6a", "7a", "8a", "9a", "10a", "11a",
     "12p", "1p", "2p", "3p", "4p", "5p", "6p", "7p", "8p", "9p", "10p", "11p"]

  /** The hour on a 12-hour clock face, `hour % 12 || 12`. */
  function TwelveHour(hour: int): (n: int)
    requires 0 <= hour < 24
    ensures 1 <= n <= 12
    ensures n % 12 == hour % 12
  {
    if hour % 12 == 0 then 12 else hour % 12
  }

  /** Seven weekdays from Sunday, twelve months from January. */
  lemma TableShapes()
    ensures |DaysOfWeek| == 7 && DaysOfWeek[0] == "Sunday" && DaysOfWeek[6] == "Saturday"
    ensures |MonthNames| == 12 && MonthNames[0] == "January" && MonthNames[11] == "December"
    ensures |HourlyPeriods| == 24
  {
  }

  /** Every abbreviation is the first three letters of the full name, and
      every one-letter month label is the first letter of the month. */
  lemma AbbreviationsArePrefixes()
    ensures |AbbrevDaysOfWeek| == 7 && |AbbrevMonthNames| == 12 && |SuperAbbrevMonthNames| == 12
    ensures forall i :: 0 <= i < 7 ==>
      |AbbrevDaysOfWeek[i]| == 3 && AbbrevDaysOfWeek[i] == DaysOfWeek[i][..3]
    ensures forall i :: 0 <= i < 12 ==>
      |AbbrevMonthNames[i]| == 3 && AbbrevMonthNames[i] == MonthNames[i][..3]
    ensures forall i :: 0 <= i < 12 ==> SuperAbbrevMonthNames[i] == [MonthNames[i][0]]
  {
    forall i | 0 <= i < 7 ensures |DaysOfWeek[i]| >= 3 {
    }
    forall i | 0 <= i < 12 ensures |MonthNames[i]| >= 3 {
    }
  }

  /** Hour `h` is labelled by its 12-hour clock number followed by "a" in the
      morning and "p" from noon on. */
  lemma HourlyPeriodRule(h: int)
    requires 0 <= h < 24
    ensures HourlyPeriods[h] == IntToString(TwelveHour(h)) + (if h < 12 then "a" else "p")
  {
    var n := TwelveHour(h);
    if n < 10 {
      assert IntToString(n) == [DigitChar(n)];
    } else {
      assert IntToString(n) == NatToString(1) + [DigitChar(n - 10)];
    }
  }
}
