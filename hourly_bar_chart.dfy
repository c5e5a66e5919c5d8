/** The hourly bar chart: one bar per hourly reading, an outdoor temperature
    line matched to the readings by timestamp, and a brush whose window decides
    how coarse the axis labels are. Both copies of the component (with and
    without the temperature line) share this model. Instants are whole seconds;
    `today` stands for the clock reading `new Date()`. */
module HourlyBarChart {
  import opened Js
  import opened Text
  import opened Calendar
  import opened Constants
  import opened Types
  import opened Utils
  import WeekBubbleChart

  /** `SHOW_LAST_NUM_DAYS`: how many days the chart reports as shown on load. */
  const ShowLastNumDays: nat := 5

  // -------------------------------------------------------------- maxima

  /** `xs.reduce((max, current) => (current > max ? current : max), acc)`. */
  function ReduceMax(acc: real, xs: seq<real>): (m: real)
    ensures acc <= m
    ensures forall i :: 0 <= i < |xs| ==> xs[i] <= m
    ensures m == acc || exists i :: 0 <= i < |xs| && xs[i] == m
    decreases |xs|
  {
    if xs == [] then acc
    else
      var m := ReduceMax(if xs[0] > acc then xs[0] else acc, xs[1..]);
      assert forall i :: 1 <= i < |xs| ==> xs[i] == xs[1..][i - 1];
      m
  }

  /** `maxValue`: the reduce starts from `data[0].value`, so empty data is
      not handled (reading `data[0]` fails). */
  function MaxValue(data: seq<PowerDataItem>): (m: real)
    requires data != []
    ensures forall i :: 0 <= i < |data| ==> data[i].value <= m
    ensures exists i :: 0 <= i < |data| && data[i].value == m
  {
    var vs := Values(data);
    var m := ReduceMax(data[0].value, vs);
    assert vs[0] == data[0].value;
    m
  }

  /** An outdoor temperature reading. */
  datatype WeatherDataItem = WeatherDataItem(date: int, value: real)

  function WeatherValues(weather: seq<WeatherDataItem>): (vs: seq<real>)
    ensures |vs| == |weather|
    ensures forall i :: 0 <= i < |weather| ==> vs[i] == weather[i].value
  {
    if weather == [] then [] else [weather[0].value] + WeatherValues(weather[1..])
  }

  /** `maxWeatherValue`: 0 without weather readings, their maximum otherwise. */
  function MaxWeatherValue(weather: seq<WeatherDataItem>): (m: real)
    ensures weather == [] ==> m == 0.0
    ensures forall i :: 0 <= i < |weather| ==> weather[i].value <= m
    ensures weather != [] ==> exists i :: 0 <= i < |weather| && weather[i].value == m
  {
    if |weather| > 0 then
      var vs := WeatherValues(weather);
      var m := ReduceMax(weather[0].value, vs);
      assert vs[0] == weather[0].value;
      m
    else 0.0
  }

  /** The reduce-based maximum is the same number as `Math.max` over the
      values (the week bubble chart's `maxDomain`): both copies of the chart
      scale their axis to the largest reading. */
  lemma MaxValueAgreesWithMathMax(data: seq<PowerDataItem>)
    requires data != []
    ensures WeekBubbleChart.MaxDomain(data) == Fin(MaxValue(data))
  {
    var d := WeekBubbleChart.MaxDomain(data);
    var m := MaxValue(data);
    var i :| 0 <= i < |data| && data[i].value == m;
    var j :| 0 <= j < |data| && data[j].value == d.r;
    assert data[i].value <= d.r && data[j].value <= m;
  }

  // ------------------------------------------------------- weather merge

  /** `weatherData.find((w) => w.date.getTime() === t)`. */
  function FindWeather(weather: seq<WeatherDataItem>, t: int): (r: Option<WeatherDataItem>)
    ensures r.None? <==> forall i :: 0 <= i < |weather| ==> weather[i].date != t
    ensures r.Some? ==> r.value.date == t && r.value in weather
  {
    if weather == [] then None
    else if weather[0].date == t then Some(weather[0])
    else
      var r := FindWeather(weather[1..], t);
      assert forall i :: 1 <= i < |weather| ==> weather[i] == weather[1..][i - 1];
      r
  }

  /** A bar of the combined chart: the reading, with the temperature of the
      same instant when there is one (`null` otherwise). */
  datatype CombinedItem = CombinedItem(date: int, value: real, weatherValue: Option<real>)

  function Combine(item: PowerDataItem, weather: seq<WeatherDataItem>): (c: CombinedItem)
    ensures c.date == item.date && c.value == item.value
  {
    var w := FindWeather(weather, item.date);
    CombinedItem(item.date, item.value, if w.Some? then Some(w.value.value) else None)
  }

  /** `combinedData`: every reading, in order, joined with its temperature. */
  function CombinedData(data: seq<PowerDataItem>, weather: seq<WeatherDataItem>): (r: seq<CombinedItem>)
    ensures |r| == |data|
    ensures forall i :: 0 <= i < |data| ==> r[i].date == data[i].date && r[i].value == data[i].value
    ensures forall i :: 0 <= i < |data| ==> r[i] == Combine(data[i], weather)
  {
    if data == [] then [] else [Combine(data[0], weather)] + CombinedData(data[1..], weather)
  }

  /** The temperature joined to a reading is that of the first weather item
      with exactly the reading's timestamp, and it is missing exactly when no
      weather item has that timestamp. */
  lemma {:induction false} CombinedWeather(data: seq<PowerDataItem>, weather: seq<WeatherDataItem>, i: int)
    requires 0 <= i < |data|
    ensures var c := CombinedData(data, weather)[i];
      (c.weatherValue.None? <==> forall j :: 0 <= j < |weather| ==> weather[j].date != data[i].date)
      && (c.weatherValue.Some? ==>
            exists j :: 0 <= j < |weather| && weather[j].date == data[i].date
              && weather[j].value == c.weatherValue.value
              && forall k :: 0 <= k < j ==> weather[k].date != data[i].date)
  {
    FirstMatch(weather, data[i].date);
  }

  /** `find` returns the first item with the timestamp. */
  lemma {:induction false} FirstMatch(weather: seq<WeatherDataItem>, t: int)
    ensures FindWeather(weather, t).Some? ==>
      exists j :: 0 <= j < |weather| && weather[j] == FindWeather(weather, t).value
        && forall k :: 0 <= k < j ==> weather[k].date != t
  {
    if weather != [] && weather[0].date != t {
      var rest := weather[1..];
      FirstMatch(rest, t);
      if FindWeather(rest, t).Some? {
        var j :| 0 <= j < |rest| && rest[j] == FindWeather(rest, t).value
          && forall k :: 0 <= k < j ==> rest[k].date != t;
        assert weather[j + 1] == rest[j];
        forall k | 0 <= k < j + 1 ensures weather[k].date != t {
          if k > 0 {
            assert weather[k] == rest[k - 1];
          }
        }
      }
    } else if weather != [] {
      assert weather[0] == FindWeather(weather, t).value;
    }
  }

  // ------------------------------------------------------------ windows

  /** The window reported as shown on load: `data.slice(data.length - 24 * 5)`. */
  function InitialShown(data: seq<PowerDataItem>): seq<PowerDataItem>
  {
    Slice(data, |data| - 24 * ShowLastNumDays, None)
  }

  /** With at least five days of readings the initial window is the last 120
      of them. */
  lemma InitialShownLast(data: seq<PowerDataItem>)
    requires |data| >= 120
    ensures InitialShown(data) == data[|data| - 120..]
    ensures |InitialShown(data)| == 120
  {
    SliceFromLengthMinus(data, 120, None);
  }

  /** With fewer readings the start `len - 120` is negative and counts back
      from the end once more: 100 readings show only the last 20, and 60 or
      fewer show everything. */
  lemma InitialShownShort(data: seq<PowerDataItem>)
    requires |data| < 120
    ensures InitialShown(data) == data[if 2 * |data| >= 120 then 2 * |data| - 120 else 0..]
    ensures |data| <= 60 ==> InitialShown(data) == data
  {
    SliceFromLengthMinus(data, 120, None);
  }

  /** The window reported on a brush change:
      `data.slice(startIndex, endIndex ? endIndex + 1 : endIndex)`. */
  function BrushWindow(data: seq<PowerDataItem>, startIndex: int, endIndex: int): seq<PowerDataItem>
  {
    Slice(data, startIndex, Some(if endIndex != 0 then endIndex + 1 else endIndex))
  }

  /** For a brush over indices `startIndex..endIndex` with a non-zero end, the
      window is that inclusive range, `endIndex - startIndex + 1` readings. */
  lemma BrushWindowInclusive(data: seq<PowerDataItem>, startIndex: int, endIndex: int)
    requires 0 <= startIndex <= endIndex < |data| && endIndex != 0
    ensures BrushWindow(data, startIndex, endIndex) == data[startIndex..endIndex + 1]
    ensures |BrushWindow(data, startIndex, endIndex)| == endIndex - startIndex + 1
  {
    SliceInRange(data, startIndex, endIndex + 1);
  }

  /** An end index of 0 is falsy: the slice then ends at 0 and the reported
      window is empty, even for a brush over the first reading alone. */
  lemma BrushWindowEndZero(data: seq<PowerDataItem>, startIndex: int)
    requires startIndex >= 0
    ensures BrushWindow(data, startIndex, 0) == []
  {
  }

  // --------------------------------------------------------------- zoom

  /** `brushWidth`: how much of the history the brush spans. */
  datatype BrushWidth = DayZoom | WeekZoom | MonthZoom | YearZoom

  function Rank(w: BrushWidth): (n: nat)
    ensures n < 4
  {
    match w
    case DayZoom => 0
    case WeekZoom => 1
    case MonthZoom => 2
    case YearZoom => 3
  }

  /** The zoom a brush over `startIndex..endIndex` of `len` readings selects. */
  function Classify(startIndex: int, endIndex: int, len: int): (w: BrushWidth)
    ensures w == DayZoom ==> endIndex - startIndex <= 144 && startIndex > len - 144
    ensures w == YearZoom <==> endIndex - startIndex > 2160
  {
    var indexWidth := endIndex - startIndex;
    if indexWidth <= 6 * 24 && startIndex > len - 24 * 6 then DayZoom
    else if indexWidth <= 28 * 24 then WeekZoom
    else if indexWidth <= 90 * 24 then MonthZoom
    else YearZoom
  }

  /** The zoom thresholds: "day" exactly for at most 144 hours ending within
      the last 144 readings, "week" up to 672 hours, "month" up to 2160 hours,
      "year" beyond. */
  lemma ZoomThresholds(startIndex: int, endIndex: int, len: int)
    ensures var w, width := Classify(startIndex, endIndex, len), endIndex - startIndex;
      (w == DayZoom <==> width <= 144 && startIndex > len - 144)
      && (w == WeekZoom <==> width <= 672 && !(width <= 144 && startIndex > len - 144))
      && (w == MonthZoom <==> 672 < width <= 2160)
      && (w == YearZoom <==> width > 2160)
  {
  }

  /** Widening the brush from the same start never makes the zoom finer. */
  lemma ZoomMonotone(startIndex: int, end1: int, end2: int, len: int)
    requires end1 <= end2
    ensures Rank(Classify(startIndex, end1, len)) <= Rank(Classify(startIndex, end2, len))
  {
  }

  /** The chart's zoom state and the brush handler. */
  class Chart {
    var brushWidth: BrushWidth

    /** `useState("day")`. */
    constructor()
      ensures brushWidth == DayZoom
    {
      brushWidth := DayZoom;
    }

    /** The Brush `onChange` handler. The zoom is reclassified only when both
        indices are truthy, that is non-zero; the shown window goes to the
        `dataShown` callback when there is one. */
    method OnBrushChange(data: seq<PowerDataItem>, startIndex: int, endIndex: int, hasDataShown: bool)
      returns (shown: Option<seq<PowerDataItem>>)
      modifies this
      ensures brushWidth ==
        (if endIndex != 0 && startIndex != 0 then Classify(startIndex, endIndex, |data|)
         else old(brushWidth))
      ensures shown == (if hasDataShown then Some(BrushWindow(data, startIndex, endIndex)) else None)
    {
      if endIndex != 0 && startIndex != 0 {
        var indexWidth := endIndex - startIndex;
        if indexWidth <= 6 * 24 && startIndex > |data| - 24 * 6 {
          brushWidth := DayZoom;
        } else if indexWidth <= 28 * 24 {
          brushWidth := WeekZoom;
        } else if indexWidth <= 90 * 24 {
          brushWidth := MonthZoom;
        } else {
          brushWidth := YearZoom;
        }
      }
      if hasDataShown {
        shown := Some(Slice(data, startIndex, Some(if endIndex != 0 then endIndex + 1 else endIndex)));
      } else {
        shown := None;
      }
    }
  }

  // ------------------------------------------------------------- labels

  /** `hour >= 12 ? "PM" : "AM"`. */
  function AmPm(hour: int): (s: string)
    ensures |s| == 2
  {
    if hour >= 12 then "PM" else "AM"
  }

  /** The hour on the clock face with its half of the day, as in "12AM". */
  function ClockHour(hour: int): string
    requires 0 <= hour < 24
  {
    IntToString(TwelveHour(hour)) + AmPm(hour)
  }

  /** Midnight is 12AM, noon 12PM, one o'clock in the afternoon 1PM. */
  lemma ClockHourExamples()
    ensures ClockHour(0) == "12AM" && ClockHour(12) == "12PM" && ClockHour(13) == "1PM"
  {
    assert NatToString(12) == NatToString(1) + [DigitChar(2)];
  }

  /** `a + b == c + d` with `|a| == |c|` splits into `a == c` and `b == d`. */
  lemma ConcatCancel(a: string, b: string, c: string, d: string)
    requires a + b == c + d && |a| == |c|
    ensures a == c && b == d
  {
    assert a == (a + b)[..|a|] && c == (c + d)[..|c|];
    assert b == (a + b)[|a|..] && d == (c + d)[|c|..];
  }

  /** The clock-face number and the half of the day together fix the hour. */
  lemma ClockPartsDetermineHour(h1: int, h2: int)
    requires 0 <= h1 < 24 && 0 <= h2 < 24
    requires IntToString(TwelveHour(h1)) == IntToString(TwelveHour(h2)) && AmPm(h1) == AmPm(h2)
    ensures h1 == h2
  {
    IntToStringInjective(TwelveHour(h1), TwelveHour(h2));
    assert (h1 >= 12) == (h2 >= 12);
  }

  /** The 24 hours of a day get 24 different clock labels. */
  lemma ClockHourInjective(h1: int, h2: int)
    requires 0 <= h1 < 24 && 0 <= h2 < 24
    ensures ClockHour(h1) == ClockHour(h2) <==> h1 == h2
  {
    if ClockHour(h1) == ClockHour(h2) {
      var a1, a2 := IntToString(TwelveHour(h1)), IntToString(TwelveHour(h2));
      ConcatCancel(a1, AmPm(h1), a2, AmPm(h2));
      ClockPartsDetermineHour(h1, h2);
    }
  }

  /** `${formattedHour}:00-${formattedHour}:59${ampm}`. */
  function HourRange(hour: int): string
    requires 0 <= hour < 24
  {
    var fh := IntToString(TwelveHour(hour));
    fh + ":00-" + fh + ":59" + AmPm(hour)
  }

  /** A range `a:00-a:59p` determines its clock number `a` and its suffix `p`. */
  lemma RangeCancel(a1: string, p1: string, a2: string, p2: string)
    requires a1 + ":00-" + a1 + ":59" + p1 == a2 + ":00-" + a2 + ":59" + p2
    requires |p1| == |p2|
    ensures a1 == a2 && p1 == p2
  {
    var m1, m2 := ":00-" + a1 + ":59", ":00-" + a2 + ":59";
    assert a1 + ":00-" + a1 + ":59" + p1 == (a1 + m1) + p1;
    assert a2 + ":00-" + a2 + ":59" + p2 == (a2 + m2) + p2;
    ConcatCancel(a1 + m1, p1, a2 + m2, p2);
    assert |a1 + m1| == 2 * |a1| + 7 && |a2 + m2| == 2 * |a2| + 7;
    ConcatCancel(a1, m1, a2, m2);
  }

  /** Different hours of the day give different tooltip hour ranges. */
  lemma HourRangeInjective(h1: int, h2: int)
    requires 0 <= h1 < 24 && 0 <= h2 < 24
    ensures HourRange(h1) == HourRange(h2) <==> h1 == h2
  {
    if HourRange(h1) == HourRange(h2) {
      RangeCancel(IntToString(TwelveHour(h1)), AmPm(h1), IntToString(TwelveHour(h2)), AmPm(h2));
      ClockPartsDetermineHour(h1, h2);
    }
  }

  /** The line break and indentation inside the template literal between the
      month abbreviation and the ordinal day. */
  const Gap: string := " \n                  "

  /** The abbreviated month and the ordinal day of the month. */
  function MonthAndDay(t: int): string
  {
    AbbrevMonthNames[Month(t)] + Gap + WithOrdinalSuffix(Date(t))
  }

  /** `dateDay`: weekday (or Today/Yesterday), month and ordinal day. */
  function DateDay(t: int, today: int): string
  {
    ToWeekdayName(t, true, today) + ", " + MonthAndDay(t)
  }

  /** The tooltip title of the bar at instant `t`. */
  function TooltipLabel(t: int, today: int): (title: string)
    ensures ToWeekdayName(t, true, today) <= title
    ensures |title| > |HourRange(Hours(t))|
    ensures title[|title| - |HourRange(Hours(t))|..] == HourRange(Hours(t))
  {
    DateDay(t, today) + ", " + HourRange(Hours(t))
  }

  /** Everything in a label but the hour depends on the day alone. */
  lemma SameDayLabels(t1: int, t2: int, today: int)
    requires DayNumber(t1) == DayNumber(t2)
    ensures ToWeekdayName(t1, true, today) == ToWeekdayName(t2, true, today)
    ensures MonthAndDay(t1) == MonthAndDay(t2)
    ensures DateDay(t1, today) == DateDay(t2, today)
  {
    assert Date(t1) == Date(t2) && Month(t1) == Month(t2) && FullYear(t1) == FullYear(t2);
    assert SameCivilDate(t1, today) == SameCivilDate(t2, today);
    assert SameCivilDate(t1, AddDays(today, -1)) == SameCivilDate(t2, AddDays(today, -1));
    assert Weekday(t1) == Weekday(t2);
  }

  /** Two bars of the same day have the same tooltip exactly when they are
      the same hour. */
  lemma TooltipDistinguishesHours(t1: int, t2: int, today: int)
    requires DayNumber(t1) == DayNumber(t2)
    ensures TooltipLabel(t1, today) == TooltipLabel(t2, today) <==> Hours(t1) == Hours(t2)
  {
    SameDayLabels(t1, t2, today);
    var p := DateDay(t1, today) + ", ";
    if TooltipLabel(t1, today) == TooltipLabel(t2, today) {
      ConcatCancel(p, HourRange(Hours(t1)), p, HourRange(Hours(t2)));
    }
    HourRangeInjective(Hours(t1), Hours(t2));
  }

  /** The week and month zoom tick: month, ordinal day and weekday. */
  function DayTick(date: int, today: int): string
  {
    MonthAndDay(date) + " (" + ToWeekdayName(date, true, today) + ")"
  }

  /** The x-axis tick label of instant `date` at the current zoom. */
  function TickLabel(date: int, width: BrushWidth, today: int): (tick: string)
    ensures width == DayZoom ==> ToWeekdayName(date, true, today) <= tick
    ensures width == WeekZoom || width == MonthZoom ==> AbbrevMonthNames[Month(date)] <= tick
    ensures width == YearZoom ==> tick in MonthNames
  {
    match width
    case DayZoom => ToWeekdayName(date, true, today) + " " + ClockHour(Hours(date))
    case WeekZoom => DayTick(date, today)
    case MonthZoom => DayTick(date, today)
    case YearZoom => MonthNames[Month(date)]
  }

  /** At day zoom, two ticks of the same day are labelled alike exactly when
      they fall in the same hour. */
  lemma DayTickDistinguishesHours(t1: int, t2: int, today: int)
    requires DayNumber(t1) == DayNumber(t2)
    ensures TickLabel(t1, DayZoom, today) == TickLabel(t2, DayZoom, today) <==> Hours(t1) == Hours(t2)
  {
    SameDayLabels(t1, t2, today);
    var p := ToWeekdayName(t1, true, today) + " ";
    assert TickLabel(t1, DayZoom, today) == p + ClockHour(Hours(t1));
    assert TickLabel(t2, DayZoom, today) == p + ClockHour(Hours(t2));
    if TickLabel(t1, DayZoom, today) == TickLabel(t2, DayZoom, today) {
      ConcatCancel(p, ClockHour(Hours(t1)), p, ClockHour(Hours(t2)));
    }
    ClockHourInjective(Hours(t1), Hours(t2));
  }

  lemma DayTickSameDay(t1: int, t2: int, today: int)
    requires DayNumber(t1) == DayNumber(t2)
    ensures DayTick(t1, today) == DayTick(t2, today)
  {
    SameDayLabels(t1, t2, today);
  }

  /** At week, month and year zoom the tick names the day or the month and
      not the hour: all instants of one day get the same label. */
  lemma CoarseTicksIgnoreHour(t1: int, t2: int, w: BrushWidth, today: int)
    requires DayNumber(t1) == DayNumber(t2)
    requires w == WeekZoom || w == MonthZoom || w == YearZoom
    ensures TickLabel(t1, w, today) == TickLabel(t2, w, today)
  {
    DayTickSameDay(t1, t2, today);
  }

  // --------------------------------------------------------------- axes

  /** Left axis: domain `[0, ceil(maxValue)]`. */
  function ValueAxisTop(maxValue: real): int
  {
    Ceil(maxValue)
  }

  /** Left axis: `Math.min(8, Math.ceil(maxValue) + 1)` ticks. */
  function ValueTickCount(maxValue: real): int
  {
    var n := Ceil(maxValue) + 1;
    if n < 8 then n else 8
  }

  /** The left axis reaches the largest reading, and no whole number below
      its top does. */
  lemma ValueAxisCoversMax(data: seq<PowerDataItem>)
    requires data != []
    ensures forall i :: 0 <= i < |data| ==> data[i].value <= ValueAxisTop(MaxValue(data)) as real
    ensures exists i :: 0 <= i < |data| && (ValueAxisTop(MaxValue(data)) - 1) as real < data[i].value
  {
    var i :| 0 <= i < |data| && data[i].value == MaxValue(data);
    assert (ValueAxisTop(MaxValue(data)) - 1) as real < data[i].value;
  }

  /** Never more than eight ticks; below that, one tick per whole kW from 0. */
  lemma TickCountRule(maxValue: real)
    ensures ValueTickCount(maxValue) <= 8
    ensures Ceil(maxValue) < 7 ==> ValueTickCount(maxValue) == ValueAxisTop(maxValue) + 1
    ensures maxValue > 0.0 ==> ValueTickCount(maxValue) >= 2
  {
  }

  /** Right axis: domain `[0, ceil(maxWeatherValue / 10) * 10]`. */
  function WeatherAxisTop(maxWeatherValue: real): int
  {
    Ceil(maxWeatherValue / 10.0) * 10
  }

  /** Right axis: `Math.min(8, Math.ceil(maxWeatherValue / 10))` ticks. */
  function WeatherTickCount(maxWeatherValue: real): int
  {
    var n := Ceil(maxWeatherValue / 10.0);
    if n < 8 then n else 8
  }

  /** The temperature axis ends at the first multiple of ten at or above the
      warmest reading, with at most eight ticks; without weather readings it
      collapses to `[0, 0]` with no ticks. */
  lemma WeatherAxisBounds(weather: seq<WeatherDataItem>)
    ensures var top := WeatherAxisTop(MaxWeatherValue(weather));
      top % 10 == 0
      && (forall i :: 0 <= i < |weather| ==> weather[i].value <= top as real)
      && (weather != [] ==> exists i :: 0 <= i < |weather| && weather[i].value > (top - 10) as real)
      && WeatherTickCount(MaxWeatherValue(weather)) <= 8
    ensures weather == [] ==>
      WeatherAxisTop(MaxWeatherValue(weather)) == 0 && WeatherTickCount(MaxWeatherValue(weather)) == 0
  {
    var m := MaxWeatherValue(weather);
    var n := Ceil(m / 10.0);
    assert (n * 10) as real == n as real * 10.0;
    assert ((n - 1) * 10) as real == (n - 1) as real * 10.0;
    assert m == m / 10.0 * 10.0;
  }
}
