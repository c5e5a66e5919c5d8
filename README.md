# PowerPlot dashboard data pipeline and config store, in Dafny

This project models the client-side data pipeline of the PowerPlot energy-usage
dashboard (the React components that turn the API's timestamp→kWh records into
chart series, labels and selections) and the Python `Config` store that the
scraper and the server share. Everything is proved with Dafny's verifier; nothing
is compiled or executed.

Modules, one per source file or group of identical copies:

- `Text`, `Js`, `Calendar`: the language built-ins the source relies on.
  - `split`/`join`, Python `replace`/`lower`, and integer-to-string rendering.
  - JavaScript numbers as reals with NaN and ±Infinity, `Math.round` (floor of x + 1/2), `Math.ceil`, truncating `%`, `toFixed`, and `Array.slice` with negative indices.
  - Calendar fields of an instant, counted in whole seconds, in UTC.
- `Constants`: the day, month and hour-label tables.
- `Utils`: `titleCase`, `withOrdinalSuffix`, `calculateMean`, `toWeekdayName` (the current time is a parameter, `today`) and `numHoursToTimeString`.
- `Types`: `mapData`, `deserialize` and `unpackFromAPI`. A JavaScript record is the sequence of its entries in key order. Timestamp parsing is a parameter `parse`.
- `DailyLineChart`: month grouping with the optional running sum, the cumulative toggles, and the line-highlight rule. The grouping loop (`SortedData`) is generic in the grouping key. It is proved for whatever key function it is given; the chart passes the month name.
- `WeekBubbleChart`: the last-week window, the placeholders that complete the latest day, the days-ago buckets, the maximum, and the mean over positive readings. The source's single `useMemo` is split into two methods, one per loop (`CompleteDay`, `Bucketize`), composed by `SortedData`.
- `HourlyBarChart`: the maxima, the weather merge, the initial window, the brush zoom state machine and slice, and the tooltip and tick labels. It covers both copies of the component.
- `MonthlyBarChart`: the select/highlight state machine of both copies, the twelve-bar window, the tick names and the y-axis domain.
- `BillBreakdown`: the pie slices, their labels, the percentage shares and the dollar amounts.
- `ConfigStore`: the singleton `Config` with dotted-key read, write and `get`, and `get_db_name` in its two variants.
  - Nested dictionaries are values. The descent loop of `__setitem__` records the dictionaries it passes, and `Rebuild` writes the changed one back up the path.

Where a source copy differs from its twin, the model keeps both behaviours:

- the webapp monthly chart's hover handlers do nothing;
- the webapp pie chart does not title-case;
- the legacy daily chart flips the toggle and has a two-level opacity;
- the server's `get_db_name` has no KeyError guard.

JavaScript quirks are reproduced, not corrected:

- negative-start `slice`;
- `&&` guards on indices that are 0;
- `Math.round` rounding halves up;
- the mean of an empty list being NaN;
- truncating `%`;
- the monthly chart's initial selection `data.length - 1` being compared with indices of the last-twelve slice.

## Model

| member | source | states |
|---|---|---|
| Text.Split | pp-scraper/powerplot_scraper/config.py:68 | `split` on one character yields at least one piece and no piece contains the separator |
| Text.SplitJoinReplaces | webapp/src/components/bill-breakdown-pie-chart.tsx:54 | `s.split(a).join(b)` equals replacing every `a` by `b` |
| Text.Remove | pp-scraper/powerplot_scraper/config.py:109 | `replace(" ", "")` leaves no space and never lengthens the string |
| Text.LowerString | pp-scraper/powerplot_scraper/config.py:109 | `lower()` keeps the length and lower-cases every character |
| Text.Take | pp-scraper/powerplot_scraper/config.py:114 | The result is the prefix of the input whose length is the smaller of n and the input's length. |
| Js.Div | pp-webapp/src/lib/utils.ts:51 | division gives the quotient for a non-zero divisor, NaN for 0/0, and ±Infinity otherwise |
| Js.Round | pp-webapp/src/components/daily-line-chart/index.tsx:56 | `Math.round(x)` is the integer n with n − ½ ≤ x < n + ½ (halves go up) |
| Js.Ceil | pp-webapp/src/components/monthly-bar-chart/index.tsx:147 | `Math.ceil(x)` is the integer n with n − 1 < x ≤ n |
| Js.Rem | pp-webapp/src/lib/utils.ts:36 | `%` truncates: the remainder takes the sign of the dividend |
| Js.SumAppend | pp-webapp/src/lib/utils.ts:50 | the `reduce` sum of a concatenation is the sum of the sums |
| Js.ToFixedZero | webapp/src/lib/utils.ts:56-57 | `toFixed(0)` of a non-negative number prints its `Math.round` |
| Js.RelativeIndex | pp-webapp/src/components/monthly-bar-chart/index.tsx:46 | a `slice` index is clamped to [0, length], and negative ones count from the end |
| Js.SliceFromLengthMinus | pp-webapp/src/components/week-bubble-chart/index.tsx:36-37 | `slice(len − k)` is the last k items, or, when len < k, the items from max(2·len − k, 0) |
| Js.SliceInRange | pp-webapp/src/components/hourly-bar-chart/index.tsx:171-177 | `slice(s, e)` with 0 ≤ s ≤ e ≤ len is `data[s..e]` |
| Calendar.Month | pp-webapp/src/lib/types.ts:90 | `getMonth()` is in 0..11 |
| Calendar.Date | pp-webapp/src/lib/types.ts:91 | `getDate()` is in 1..31 |
| Calendar.Hours | pp-webapp/src/lib/types.ts:92 | `getHours()` is in 0..23 |
| Calendar.Weekday | pp-webapp/src/lib/utils.ts:78 | `getDay()` is in 0..6 |
| Calendar.SameDateIffSameDay | pp-webapp/src/lib/utils.ts:59-63 | equal date, month and full year is the same thing as the same day |
| Calendar.AddDaysDayNumber | pp-webapp/src/lib/utils.ts:67-68 | `setDate(getDate() − 1)` moves to the previous day |
| Calendar.SetHoursSameDay | pp-webapp/src/components/week-bubble-chart/index.tsx:27 | `setHours(h, m, s)` stays on the same day, sets the hour, and 23:59:59 is the day's last second |
| Constants.TableShapes | powerplot-webapp/src/lib/constants.ts:1-23 | seven days from Sunday, twelve months from January, twenty-four hour labels |
| Constants.TakeEach | powerplot-webapp/src/lib/constants.ts:24-26 | `names.map((m) => m.slice(0, n))` takes each name's first n characters |
| Constants.AbbreviationsArePrefixes | powerplot-webapp/src/lib/constants.ts:24-26 | each abbreviated day and month is the three-letter prefix, and each super-abbreviated month is the initial |
| Constants.TwelveHour | powerplot-webapp/src/lib/constants.ts:28-53 | the 12-hour clock number is in 1..12 and agrees with the hour mod 12 |
| Constants.HourlyPeriodRule | powerplot-webapp/src/lib/constants.ts:28-53 | hour label h is the 12-hour number followed by "a" before noon and "p" after |
| Utils.TitleCase | pp-webapp/src/lib/utils.ts:3-9 | title-casing keeps the length |
| Utils.TitleCaseAt | pp-webapp/src/lib/utils.ts:6-8 | a character is upper-cased at a word start (after the start or whitespace), and lower-cased elsewhere |
| Utils.TitleCaseLowerElsewhere | pp-webapp/src/lib/utils.ts:7-8 | no upper-case letter remains except at word starts |
| Utils.TitleCaseIdempotent | pp-webapp/src/lib/utils.ts:6 | title-casing twice is title-casing once |
| Utils.TitleCaseExample | pp-webapp/src/lib/utils.ts:5 | 'this test sentence' becomes 'This Test Sentence' |
| Utils.OrdinalSuffix | pp-webapp/src/lib/utils.ts:36-45 | the suffix is one of st, nd, rd, th |
| Utils.WithOrdinalSuffix | pp-webapp/src/lib/utils.ts:30-46 | the label ends in one of the four suffixes |
| Utils.OrdinalSuffixByLastDigit | pp-webapp/src/lib/utils.ts:33-45 | 11..13 take "th", and otherwise the suffix depends only on the last digit (1 st, 2 nd, 3 rd, else th) |
| Utils.OrdinalExamples | pp-webapp/src/lib/utils.ts:31-32 | 2nd, 21st, 17th, 12th and 111st |
| Utils.WithOrdinalSuffixInjective | webapp/src/lib/utils.ts:3-19 | different days get different labels |
| Utils.OrdinalLabel | webapp/src/lib/utils.ts:6-18 | the label is the day's decimal digits followed by its suffix |
| Utils.CalculateMean | pp-webapp/src/lib/utils.ts:48-52 | the mean is NaN exactly for an empty list, and otherwise mean × length = sum |
| Utils.MeanBetweenBounds | webapp/src/lib/utils.ts:21-24 | the mean of a non-empty list lies between any lower and upper bound of its items |
| Utils.ToWeekdayName | pp-webapp/src/lib/utils.ts:54-81 | the name is "Today", "Yesterday", or one of the seven weekday names, from the three-letter table when abbreviated |
| Utils.WeekdayNameRule | pp-webapp/src/lib/utils.ts:54-81 | "Today" exactly on today's date, "Yesterday" exactly on the day before, otherwise the full or three-letter weekday name |
| Utils.WeekdayNamesAreNotRelative | webapp/src/lib/utils.ts:26-52 | no weekday name is "Today" or "Yesterday", so the three cases never overlap |
| Utils.NumHoursToTimeString | pp-webapp/src/lib/utils.ts:84-88 | the text ends in "h" up to 96 hours, in "d" up to 720, and in "wk" beyond |
| Utils.TimeStringUnits | pp-webapp/src/lib/utils.ts:84-88 | up to 96 hours prints hours, up to 720 prints rounded days, beyond that rounded weeks |
| Types.ItemOf | pp-webapp/src/lib/types.ts:88-100 | an item has the parsed date, the entry's value, and that date's month, day and hour in range |
| Types.MapData | pp-webapp/src/lib/types.ts:87-102 | one item per entry, in entry order, each built from its entry |
| Types.MapDataAppend | webapp/src/lib/types.ts:80-95 | mapping distributes over concatenation of records |
| Types.MapDataKeepsValues | pp-webapp/src/lib/types.ts:96 | the items' values are the entries' values, unchanged |
| Types.Deserialize | pp-webapp/src/lib/types.ts:57-85 | the three series go through `mapData` and every scalar field is copied under its renamed key |
| Types.DeserializeLosesOnlyKeys | pp-webapp/src/lib/types.ts:60-84 | two API records that deserialize alike agree on every scalar and on every series' values |
| Types.UnpackFromApi | webapp/src/lib/types.ts:53-78 | the three series go through `mapData` and the `maths.*`/`billing.*` fields are copied one-to-one |
| Types.UnpackLosesOnlyKeys | webapp/src/lib/types.ts:55-76 | two API records that unpack alike agree on `maths`, `billing` and every series' values |
| DailyLineChart.MonthName | pp-webapp/src/components/daily-line-chart/index.tsx:46 | a row's group key is a month name |
| DailyLineChart.CurrentMonth | pp-webapp/src/components/daily-line-chart/index.tsx:31-34 | the current month is the month name of the last item |
| DailyLineChart.AddRow | pp-webapp/src/components/daily-line-chart/index.tsx:48-60 | adding a row keeps every group non-empty |
| DailyLineChart.Grouped | pp-webapp/src/components/daily-line-chart/index.tsx:43-64 | every group of the result is non-empty |
| DailyLineChart.AddRowValid | pp-webapp/src/components/daily-line-chart/index.tsx:48-50 | a new month is appended to the key order once, and the key order lists exactly the groups |
| DailyLineChart.GroupedValid | pp-webapp/src/components/daily-line-chart/index.tsx:45-62 | the key order has no duplicates and lists exactly the groups |
| DailyLineChart.SortedData | pp-webapp/src/components/daily-line-chart.tsx:40-61 | the in-place `forEach` loop builds exactly `Grouped(data)` |
| DailyLineChart.GroupedLines | pp-webapp/src/components/daily-line-chart/index.tsx:53-59 | a key has a group iff some item has that key; the group is that key's items in order, passed through unchanged or as the running sum |
| DailyLineChart.GroupedKeys | pp-webapp/src/components/daily-line-chart/index.tsx:45-51 | the group keys are in first-seen order |
| DailyLineChart.CurrentMonthEndsItsLine | pp-webapp/src/components/daily-line-chart/index.tsx:33 | the last item's month has a line, and that line ends with the last item's date |
| DailyLineChart.AccumulateAt | pp-webapp/src/components/daily-line-chart/index.tsx:48-57 | the first item of a month is stored unchanged, and each later one is `Math.round(previous + value)` |
| DailyLineChart.AccumulateIsRunningSum | pp-webapp/src/components/daily-line-chart/index.tsx:53-57 | with whole-number readings, the cumulative value is the exact running sum |
| DailyLineChart.AccumulateExample | pp-webapp/src/components/daily-line-chart/index.tsx:56 | [1, 2, 3] becomes [1, 3, 6] |
| DailyLineChart.RoundWhole | pp-webapp/src/components/daily-line-chart.tsx:53 | rounding a whole number leaves it unchanged |
| DailyLineChart.LineOpacity | pp-webapp/src/components/daily-line-chart/index.tsx:168-176 | the active opacity exactly for the active line, full opacity exactly for the hovered inactive line, otherwise half the inactive opacity |
| DailyLineChart.LegacyLineOpacity | pp-webapp/src/components/daily-line-chart.tsx:146-152 | the active opacity exactly for the active line, otherwise the inactive one |
| DailyLineChart.ActiveLineRule | pp-webapp/src/components/daily-line-chart/index.tsx:177-183 | at most one line is active: the selected name; or the current month while the selection is undefined; none when it is null |
| DailyLineChart.Chart.constructor | pp-webapp/src/components/daily-line-chart/index.tsx:29 | cumulative starts on |
| DailyLineChart.Chart.OnToggle | pp-webapp/src/components/daily-line-chart/index.tsx:83-95 | "daily" turns cumulative off, "cumulative" turns it on, and any other value leaves it |
| DailyLineChart.Chart.Lines | pp-webapp/src/components/daily-line-chart/index.tsx:36-65 | the month groups: keys in first-seen order, each group the month's items, passed through or accumulated |
| DailyLineChart.LegacyChart.constructor | pp-webapp/src/components/daily-line-chart.tsx:26-31 | cumulative starts on, and the current month is the last item's month |
| DailyLineChart.LegacyChart.OnToggle | pp-webapp/src/components/daily-line-chart.tsx:79-81 | each toggle negates cumulative |
| WeekBubbleChart.After | pp-webapp/src/components/week-bubble-chart/index.tsx:38 | the filter keeps only items strictly after the cut-off |
| WeekBubbleChart.AfterMembers | pp-webapp/src/components/week-bubble-chart/index.tsx:36-38 | an item survives the filter iff it is in the input and after the cut-off |
| WeekBubbleChart.Window | pp-webapp/src/components/week-bubble-chart/index.tsx:31-38 | at most 168 points, each taken from the data and dated after the cut-off a week before the latest day's end |
| WeekBubbleChart.WindowSlice | pp-webapp/src/components/week-bubble-chart/index.tsx:31-38 | the window is the last 168 items, or the negative-start slice when there are fewer, filtered to dates after the latest day's 23:59:59 minus 7 days |
| WeekBubbleChart.Placeholders | pp-webapp/src/components/week-bubble-chart/index.tsx:40 | there are 23 − latest.hour placeholders |
| WeekBubbleChart.PlaceholderShape | pp-webapp/src/components/week-bubble-chart/index.tsx:40-50 | placeholder i covers hour latest.hour + 1 + i, has value 0 and the latest item's month and day, and the last one is hour 23 |
| WeekBubbleChart.HourLabel | pp-webapp/src/components/week-bubble-chart/index.tsx:65 | a bubble gets an hour label exactly for hours 0..23 |
| WeekBubbleChart.Tag | pp-webapp/src/components/week-bubble-chart/index.tsx:63-68 | a tagged point keeps its item and yValue 1, and has an hour label exactly for hours 0..23 |
| WeekBubbleChart.TagFields | pp-webapp/src/components/week-bubble-chart/index.tsx:55-68 | a tagged point keeps its item and adds yValue 1, the hour label and the weekday name ("Today" iff the point is today) |
| WeekBubbleChart.Bucketed | pp-webapp/src/components/week-bubble-chart/index.tsx:52-69 | every bucket is non-empty, and each of its points lies that many days back |
| WeekBubbleChart.BucketContents | pp-webapp/src/components/week-bubble-chart/index.tsx:52-69 | a bucket exists iff some point is that many days ago, and it holds exactly those points, tagged, in input order |
| WeekBubbleChart.PointInItsBucket | pp-webapp/src/components/week-bubble-chart/index.tsx:56-63 | every point lands in the bucket of its days-ago count |
| WeekBubbleChart.WindowWithinWeek | pp-webapp/src/components/week-bubble-chart/index.tsx:26-38 | when the latest point is today, every windowed point is at most 6 days ago |
| WeekBubbleChart.PlaceholdersInBucketZero | pp-webapp/src/components/week-bubble-chart/index.tsx:40-57 | when the latest point is today, every placeholder lands in bucket 0 |
| WeekBubbleChart.CompleteDay | pp-webapp/src/components/week-bubble-chart/index.tsx:36-50 | the slice, filter and placeholder loop build the window followed by the placeholders |
| WeekBubbleChart.Bucketize | pp-webapp/src/components/week-bubble-chart/index.tsx:52-71 | the bucketing loop builds exactly `Bucketed` |
| WeekBubbleChart.SortedData | pp-webapp/src/components/week-bubble-chart/index.tsx:25-72 | the buckets of the completed window |
| WeekBubbleChart.MaxOf | pp-webapp/src/components/week-bubble-chart/index.tsx:75 | the maximum is at least every value and equals one of them |
| WeekBubbleChart.MaxDomain | pp-webapp/src/components/week-bubble-chart/index.tsx:74-76 | `Math.max` is −Infinity for no data, and otherwise at least every value and equal to one of them |
| WeekBubbleChart.Positives | pp-webapp/src/components/week-bubble-chart/index.tsx:173 | `filter(d > 0)` keeps only positive values |
| WeekBubbleChart.DayMeanIgnoresZeros | pp-webapp/src/components/week-bubble-chart/index.tsx:172-174 | adding zero or negative readings, placeholders included, never changes a day's mean |
| WeekBubbleChart.DayMeanSign | pp-webapp/src/components/week-bubble-chart/index.tsx:172-173 | a day's mean is NaN exactly when it has no positive reading, and positive otherwise |
| WeekBubbleChart.MeanOfPositives | pp-webapp/src/components/week-bubble-chart/index.tsx:174 | the mean of non-empty positive values is a positive number |
| HourlyBarChart.ReduceMax | pp-webapp/src/components/hourly-bar-chart/index.tsx:38-45 | the `reduce` maximum is at least the start and every value, and equals one of them |
| HourlyBarChart.MaxValue | pp-webapp/src/components/hourly-bar-chart/index.tsx:40-44 | the maximum of non-empty data is at least every value and equals one of them |
| HourlyBarChart.MaxValueAgreesWithMathMax | pp-webapp/src/components/hourly-bar-chart.tsx:36-43 | the `reduce` from `data[0]` gives the same maximum as `Math.max` |
| HourlyBarChart.MaxWeatherValue | pp-webapp/src/components/hourly-bar-chart/index.tsx:47-56 | 0 for no weather, otherwise the maximum temperature |
| HourlyBarChart.FindWeather | pp-webapp/src/components/hourly-bar-chart/index.tsx:66-68 | `find` gives nothing iff no weather item has the timestamp, and otherwise an item with that exact timestamp |
| HourlyBarChart.Combine | pp-webapp/src/components/hourly-bar-chart/index.tsx:69-73 | a combined point keeps the date and value |
| HourlyBarChart.CombinedData | pp-webapp/src/components/hourly-bar-chart/index.tsx:64-80 | one combined point per data point, in order, with date and value kept |
| HourlyBarChart.CombinedWeather | pp-webapp/src/components/hourly-bar-chart/index.tsx:67-72 | the weather value is null iff no weather item has the timestamp, and otherwise the first such item's value |
| HourlyBarChart.InitialShownLast | pp-webapp/src/components/hourly-bar-chart/index.tsx:58-62 | with at least 120 hours, the initial window is the last 5 × 24 |
| HourlyBarChart.InitialShownShort | pp-webapp/src/components/hourly-bar-chart.tsx:45-49 | with fewer, it is the negative-start slice, and all of the data up to 60 hours |
| HourlyBarChart.BrushWindowInclusive | pp-webapp/src/components/hourly-bar-chart/index.tsx:171-177 | for a non-zero end index, the window is [start, end] inclusive, of length end − start + 1 |
| HourlyBarChart.BrushWindowEndZero | pp-webapp/src/components/hourly-bar-chart.tsx:107-114 | an end index of 0 gives an empty window |
| HourlyBarChart.Classify | pp-webapp/src/components/hourly-bar-chart/index.tsx:155-168 | day zoom only for a width of at most 144 starting within the last 144 readings; year zoom exactly for a width above 2160 |
| HourlyBarChart.ZoomThresholds | pp-webapp/src/components/hourly-bar-chart/index.tsx:154-169 | day iff width ≤ 144 and start > len − 144; week iff not day and width ≤ 672; month iff neither and width ≤ 2160; year otherwise |
| HourlyBarChart.ZoomMonotone | pp-webapp/src/components/hourly-bar-chart.tsx:90-105 | widening the brush never zooms in |
| HourlyBarChart.Chart.constructor | pp-webapp/src/components/hourly-bar-chart/index.tsx:33-35 | the zoom starts at day |
| HourlyBarChart.Chart.OnBrushChange | pp-webapp/src/components/hourly-bar-chart/index.tsx:153-179 | the zoom is reclassified only when both indices are non-zero, and the shown window is the inclusive brush slice |
| HourlyBarChart.AmPm | pp-webapp/src/components/hourly-bar-chart/index.tsx:211 | the period is a two-letter string |
| HourlyBarChart.ClockHourExamples | pp-webapp/src/components/hourly-bar-chart.tsx:161-163 | hour 0 is 12AM, 12 is 12PM, 13 is 1PM |
| HourlyBarChart.ClockHourInjective | pp-webapp/src/components/hourly-bar-chart/index.tsx:232-234 | two hours of the day get the same clock label iff they are the same hour |
| HourlyBarChart.HourRangeInjective | pp-webapp/src/components/hourly-bar-chart/index.tsx:217-219 | two hours get the same "h:00-h:59" range iff they are the same hour |
| HourlyBarChart.SameDayLabels | pp-webapp/src/components/hourly-bar-chart/index.tsx:213-214 | two instants on the same day get the same weekday, month-and-day and date prefix |
| HourlyBarChart.TooltipLabel | pp-webapp/src/components/hourly-bar-chart/index.tsx:206-219 | the tooltip starts with the weekday name and ends with the hour range |
| HourlyBarChart.TooltipDistinguishesHours | pp-webapp/src/components/hourly-bar-chart/index.tsx:206-220 | on one day, two tooltips are equal iff the hours are |
| HourlyBarChart.TickLabel | pp-webapp/src/components/hourly-bar-chart/index.tsx:229-247 | at day zoom the tick starts with the weekday name, at week and month zoom with the abbreviated month, and at year zoom it is a month name |
| HourlyBarChart.DayTickDistinguishesHours | pp-webapp/src/components/hourly-bar-chart/index.tsx:237-238 | at day zoom, two ticks on one day are equal iff the hours are |
| HourlyBarChart.DayTickSameDay | pp-webapp/src/components/hourly-bar-chart.tsx:168-173 | the week/month tick depends only on the day |
| HourlyBarChart.CoarseTicksIgnoreHour | pp-webapp/src/components/hourly-bar-chart/index.tsx:239-246 | at week, month or year zoom, two instants on the same day get the same tick |
| HourlyBarChart.ValueAxisCoversMax | pp-webapp/src/components/hourly-bar-chart/index.tsx:252 | the axis top is at least every value and less than one above the largest |
| HourlyBarChart.TickCountRule | pp-webapp/src/components/hourly-bar-chart.tsx:180 | at most 8 ticks, one per kW from 0 while the top is under 7, and at least 2 for a positive maximum |
| HourlyBarChart.WeatherAxisBounds | pp-webapp/src/components/hourly-bar-chart/index.tsx:91-92 | the temperature axis top is a multiple of 10, at least every value, less than 10 above the largest, with at most 8 ticks; 0 and no ticks without weather |
| MonthlyBarChart.Report | pp-webapp/src/components/monthly-bar-chart/index.tsx:60-64 | a reported month is one of the twelve month names |
| MonthlyBarChart.Toggle | pp-webapp/src/components/monthly-bar-chart/index.tsx:58 | the new selection is the clicked bar or nothing, and nothing exactly when the clicked bar was selected |
| MonthlyBarChart.ClickRule | pp-webapp/src/components/monthly-bar-chart/index.tsx:57-65 | a click selects a bar iff it was not selected, and a second click undoes it; the report is non-null iff the click selects, and is then the bar's month |
| MonthlyBarChart.Chart.constructor | pp-webapp/src/components/monthly-bar-chart/index.tsx:29-32 | the selection starts at `data.length − 1`, with no highlight |
| MonthlyBarChart.Chart.OnClick | pp-webapp/src/components/monthly-bar-chart/index.tsx:57-65 | the selection toggles, the highlight stays, and the report follows the old selection |
| MonthlyBarChart.Chart.OnMouseEnter | pp-webapp/src/components/monthly-bar-chart/index.tsx:66-73 | the hovered bar is highlighted and its month reported unless it is selected |
| MonthlyBarChart.Chart.OnMouseLeave | pp-webapp/src/components/monthly-bar-chart/index.tsx:74-79 | the highlight clears and null is reported |
| MonthlyBarChart.WebappChart.constructor | webapp/src/components/monthly-bar-chart.tsx:24-27 | the selection starts at `data.length − 1`, with no highlight |
| MonthlyBarChart.WebappChart.OnClick | webapp/src/components/monthly-bar-chart.tsx:52-60 | the selection toggles, and the report follows the old selection |
| MonthlyBarChart.WebappChart.OnMouseEnter | webapp/src/components/monthly-bar-chart.tsx:61-63 | hovering changes nothing |
| MonthlyBarChart.WebappChart.OnMouseLeave | webapp/src/components/monthly-bar-chart.tsx:64-66 | leaving changes nothing |
| MonthlyBarChart.Last12Long | pp-webapp/src/components/monthly-bar-chart/index.tsx:46 | with twelve or more months, the last twelve are drawn |
| MonthlyBarChart.Last12Short | webapp/src/components/monthly-bar-chart.tsx:41 | with fewer, all are drawn |
| MonthlyBarChart.InitialSelection | pp-webapp/src/components/monthly-bar-chart/index.tsx:86-100 | bar i starts selected iff there are at most twelve months and i is the last |
| MonthlyBarChart.TickLabel | pp-webapp/src/components/monthly-bar-chart/index.tsx:125-135 | one letter past four months of data, three letters otherwise |
| MonthlyBarChart.TickAbbreviation | pp-webapp/src/components/monthly-bar-chart/index.tsx:125-135 | past four months a tick is the month's initial, otherwise its first three letters |
| MonthlyBarChart.WebappTickAbbreviation | webapp/src/components/monthly-bar-chart.tsx:111-117 | the earlier chart's tick is always the first three letters |
| MonthlyBarChart.YDomainTop | pp-webapp/src/components/monthly-bar-chart/index.tsx:147 | the axis top is a multiple of 100 |
| MonthlyBarChart.YDomainRule | pp-webapp/src/components/monthly-bar-chart/index.tsx:147-148 | the domain top is a multiple of 100 in [1.1·max, 1.1·max + 100), with one tick per 100 from 0 |
| MonthlyBarChart.DrawnBarsFitAxis | pp-webapp/src/components/monthly-bar-chart/index.tsx:34-41 | every drawn bar is at most the maximum over all months and fits under 1/1.1 of the axis |
| BillBreakdown.Keys | pp-webapp/src/components/bill-breakdown-pie-chart.tsx:19 | `Object.keys` lists the entries' keys in order |
| BillBreakdown.GetAt | pp-webapp/src/components/bill-breakdown-pie-chart.tsx:20 | `record[key]` of an entry's key is that entry's value |
| BillBreakdown.Slices | webapp/src/components/bill-breakdown-pie-chart.tsx:19-21 | one slice per key, in key order, named by its key |
| BillBreakdown.SlicesFollowEntries | pp-webapp/src/components/bill-breakdown-pie-chart.tsx:19-21 | slice i carries entry i's amount and key |
| BillBreakdown.PlainLabelNameRule | webapp/src/components/bill-breakdown-pie-chart.tsx:54-55 | the earlier label replaces every underscore by a space and changes nothing else |
| BillBreakdown.LabelNameRule | pp-webapp/src/components/bill-breakdown-pie-chart.tsx:54 | the label has the key's length, spaces for underscores, no underscore, and the key's letters up to case, title-cased |
| BillBreakdown.LabelNameExample | pp-webapp/src/components/bill-breakdown-pie-chart.tsx:54-55 | "sales_tax" is labelled "Sales Tax" (earlier chart: "sales tax") |
| BillBreakdown.Share | pp-webapp/src/components/bill-breakdown-pie-chart.tsx:55 | the share is value / total × 100 for a non-zero total, and not a number for a zero total |
| BillBreakdown.Shares | webapp/src/components/bill-breakdown-pie-chart.tsx:55 | the list of shares has one share per amount |
| BillBreakdown.SharesSum | pp-webapp/src/components/bill-breakdown-pie-chart.tsx:55-56 | the shares add up to sum / total × 100, so to 100 when the amounts add up to the bill |
| BillBreakdown.SliceLabel | pp-webapp/src/components/bill-breakdown-pie-chart.tsx:54-55 | the label starts with the charge's name and ends with "%" |
| BillBreakdown.ZeroTotalShare | pp-webapp/src/components/bill-breakdown-pie-chart.tsx:54-56 | with a zero total the label reads NaN%, Infinity% or -Infinity% |
| BillBreakdown.Dollars | pp-webapp/src/components/bill-breakdown-pie-chart.tsx:70 | a dollar sign followed by the printed amount |
| BillBreakdown.DollarsRounds | pp-webapp/src/components/bill-breakdown-pie-chart.tsx:70 | a non-negative amount prints as its nearest whole dollar, halves up |
| ConfigStore.Lookup | pp-scraper/powerplot_scraper/config.py:67-74 | reading a dotted key raises only KeyError or TypeError, exactly the two exceptions `get` catches |
| ConfigStore.LookupAppend | server/powerplot/config.py:72-73 | reading a dotted key reads one level per segment |
| ConfigStore.PathLast | pp-scraper/powerplot_scraper/config.py:77-83 | the walked keys `keys[:-1]` and the assigned `keys[-1]` make up the whole key |
| ConfigStore.Assign | pp-scraper/powerplot_scraper/config.py:76-83 | a successful write leaves a dictionary at the root; a failed one raises only TypeError or AttributeError, and never when assigning straight into a root dictionary |
| ConfigStore.AssignInner | server/powerplot/config.py:84-87 | after a write, the dictionary at the end of the walk holds the value, and that dictionary is what is validated |
| ConfigStore.SetThenGet | pp-scraper/powerplot_scraper/config.py:76-83 | after a successful `config[k] = v`, `config[k]` is v, with missing levels created |
| ConfigStore.AssignFrame | pp-scraper/powerplot_scraper/config.py:80-83 | every readable key that neither leads to the written key nor lies under it reads the same afterwards |
| ConfigStore.AssignFails | server/powerplot/config.py:81-84 | a write fails exactly when the walk meets an existing non-dictionary |
| ConfigStore.Config.constructor | pp-scraper/powerplot_scraper/config.py:28-29 | a new instance is not yet initialised and has no contents |
| ConfigStore.Config.Init | pp-scraper/powerplot_scraper/config.py:33-61 | the path is always replaced; the first call loads the file, or starts empty and writes a missing file, or raises on a corrupt one; later calls keep the contents |
| ConfigStore.Config.Save | pp-scraper/powerplot_scraper/config.py:63-65 | the contents are written to the current path |
| ConfigStore.Config.GetItem | pp-scraper/powerplot_scraper/config.py:67-74 | the loop's result is `Lookup` of the dotted key: KeyError on a missing segment, TypeError on a non-dictionary |
| ConfigStore.Config.SetItem | pp-scraper/powerplot_scraper/config.py:76-90 | the new contents are `Assign` of the dotted key; a failed validation is only reported and the write is saved; a failed write changes and saves nothing |
| ConfigStore.Config.Get | pp-scraper/powerplot_scraper/config.py:92-96 | the value under the key, or the default whenever reading fails |
| ConfigStore.ConfigClass.constructor | server/powerplot/config.py:27 | there is no instance yet |
| ConfigStore.ConfigClass.New | pp-scraper/powerplot_scraper/config.py:26-39 | every construction returns the one instance; a later one keeps its contents but overwrites its path |
| ConfigStore.DbName | server/powerplot/config.py:105-114 | the server's database name ends in ".csv"; its failures are KeyError, TypeError or AttributeError |
| ConfigStore.ScraperDbName | pp-scraper/powerplot_scraper/config.py:105-118 | the scraper's copy never raises KeyError; only TypeError or AttributeError escape it |
| ConfigStore.DbNameRule | pp-scraper/powerplot_scraper/config.py:108-116 | the name is the provider name without spaces and lower-cased, "_", twelve hash digits, ".csv" |
| ConfigStore.Unconfigured | pp-scraper/powerplot_scraper/config.py:117-118 | without a provider section, the scraper's copy returns None and the server's raises KeyError |
| ConfigStore.CopiesAgree | server/powerplot/config.py:105-114 | the two copies differ only where the scraper's catches KeyError |

## Left out

- `displayDate` is not modelled: it depends on the locale formatting of `toLocaleString`.
- Invalid dates: parsing is a total parameter `parse`, so `new Date("garbage")` (NaN time) is not represented.
- Time zones and daylight saving time: local time is UTC, and an instant is a whole number of seconds. The week chart's `getTime()` differences in milliseconds are divided back into days.
- JavaScript numbers are exact reals. IEEE-754 rounding, `toFixed` past 10^21, and `Math.round` on values that are not exactly representable are not modelled.
- `toLowerCase`, `toUpperCase`, Python `lower()` and the `\s`/`\w` classes of the title-case regex are modelled on ASCII only.
- `Object.keys`/`Object.entries` order is the order of the entry sequence. The JavaScript rule that integer-like keys come first is not modelled.
- Python dictionaries are maps, so their insertion order is lost.
- Nested dictionaries are values, not shared references. A dictionary passed to `config[k] = d` and changed by the caller afterwards is not tracked.
- `ConfigStore.Config.Init`: opening, reading and creating the file and its directory are a parameter (`ConfigFile`). Loading the JSON schema is not modelled.
- `ConfigStore.Config.SetItem`: `jsonschema.validate` is a predicate parameter `valid`. Its printed message is the returned flag.
- `ConfigStore.Config.Save`: writing JSON is the `saved` map from path to document. Only the JSON values are kept, not the text layout.
- The `print` method of `Config` (a console dump) is not modelled.
- `ConfigStore.DbNameRule`: SHA-256 is an opaque parameter `hexDigest`. `Path(...)` is the plain file-name string.
- `HourlyBarChart.CombinedData`: the `else return data` branch is not modelled. It is unreachable, because the weather data is always an array.
- `HourlyBarChart.Chart.OnBrushChange`: the `onBrushChange` callback's presence is a flag. Its result is the window that would be passed.
- `MonthlyBarChart.Chart.OnClick`: the optional callbacks are always present. Their argument is the returned value.
- The earlier monthly chart computes `maxValue` but does not use it (the y-axis ticks are fixed at 50, 150 and 250). Neither is modelled.
- Presentation is not modelled: colours, opacity values, stroke widths, `minTickGap`, the "kWh"/"kW"/"F" unit strings, tooltip styling, and pie-label geometry (cos/sin positions).
- React rendering order of the week chart's buckets (`Object.entries` over numeric keys) is not modelled. The buckets are a map from days-ago to bubbles.
- `WeekBubbleChart.SortedData`: the one source loop body is split across two methods, `CompleteDay` and `Bucketize`.
- `DailyLineChart.SortedData` is generic in the key function. The chart instantiates it with the month name.
