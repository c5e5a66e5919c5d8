/** The week bubble chart: the readings of the last seven days, one row of
    hourly bubbles per day, the latest day completed with empty hours. Instants
    are whole seconds; `today` stands for the clock reading `new Date()`. */
module WeekBubbleChart {
  import opened Js
  import opened Calendar
  import opened Constants
  import opened Types
  import opened Utils

  // ------------------------------------------------------------------ window

  /** `setHours(23, 59, 59)`: the last second of the day of `t`. */
  function EndOfDay(t: int): int
  {
    SetHours(t, 23, 59, 59)
  }

  /** `weekEarlier`: seven days before the end of the latest point's day. */
  function WeekEarlier(latest: PowerDataItem): int
  {
    AddDays(EndOfDay(latest.date), -7)
  }

  /** `.filter((d) => d.date.getTime() > t)`. */
  function After(items: seq<PowerDataItem>, t: int): (r: seq<PowerDataItem>)
    ensures |r| <= |items|
    ensures forall i :: 0 <= i < |r| ==> r[i].date > t
  {
    if items == [] then []
    else
      var last := items[|items| - 1];
      After(items[..|items| - 1], t) + (if last.date > t then [last] else [])
  }

  /** The filter keeps exactly the points after `t`. */
  lemma {:induction false} AfterMembers(items: seq<PowerDataItem>, t: int, x: PowerDataItem)
    ensures x in After(items, t) <==> x in items && x.date > t
  {
    if items != [] {
      var p := items[..|items| - 1];
      AfterMembers(p, t, x);
      assert items == p + [items[|items| - 1]];
    }
  }

  /** The working list before the placeholders: `data.slice(len - 7 * 24, len)`
      filtered to the points after `weekEarlier`. */
  function Window(data: seq<PowerDataItem>): (w: seq<PowerDataItem>)
    requires |data| > 0
    ensures |w| <= 7 * 24
    ensures forall i :: 0 <= i < |w| ==> w[i] in data && w[i].date > WeekEarlier(data[|data| - 1])
  {
    var s := Slice(data, |data| - 7 * 24, Some(|data|));
    var t := WeekEarlier(data[|data| - 1]);
    assert forall i :: 0 <= i < |After(s, t)| ==> After(s, t)[i] in data by {
      forall i | 0 <= i < |After(s, t)| ensures After(s, t)[i] in data {
        AfterMembers(s, t, After(s, t)[i]);
      }
    }
    After(s, t)
  }

  /** The slice is the last 168 points when there are that many; with fewer,
      the negative start counts from the end once more and clamps at 0. */
  lemma WindowSlice(data: seq<PowerDataItem>)
    requires |data| > 0
    ensures var t := WeekEarlier(data[|data| - 1]);
      |data| >= 168 ==> Window(data) == After(data[|data| - 168..], t)
    ensures var t := WeekEarlier(data[|data| - 1]);
      |data| < 168 ==> Window(data) == After(data[if 2 * |data| >= 168 then 2 * |data| - 168 else 0..], t)
  {
    SliceFromLengthMinus(data, 168, Some(|data|));
  }

  // ------------------------------------------------------------ placeholders

  /** The empty reading pushed for `hour` of the latest point's day. */
  function Placeholder(latest: PowerDataItem, hour: int): PowerDataItem
  {
    PowerDataItem(SetHours(latest.date, hour, 0, 0), 0.0, latest.month, latest.day, hour)
  }

  /** The placeholders for the hours from `hour` to 23. */
  function PlaceholdersFrom(latest: PowerDataItem, hour: int): (ps: seq<PowerDataItem>)
    ensures |ps| == if hour <= 23 then 24 - hour else 0
    decreases 24 - hour
  {
    if hour > 23 then [] else [Placeholder(latest, hour)] + PlaceholdersFrom(latest, hour + 1)
  }

  /** The placeholders completing the latest point's day. */
  function Placeholders(latest: PowerDataItem): (ps: seq<PowerDataItem>)
    ensures |ps| == if latest.hour < 23 then 23 - latest.hour else 0
  {
    PlaceholdersFrom(latest, latest.hour + 1)
  }

  lemma {:induction false} PlaceholdersFromAt(latest: PowerDataItem, hour: int, i: int)
    requires 0 <= i < |PlaceholdersFrom(latest, hour)|
    ensures PlaceholdersFrom(latest, hour)[i] == Placeholder(latest, hour + i)
    decreases 24 - hour
  {
    if i > 0 {
      PlaceholdersFromAt(latest, hour + 1, i - 1);
    }
  }

  /** Placeholder `i` is an empty reading for hour `latest.hour + 1 + i` with the
      latest point's month and day, so the hours run up to 23 in increasing
      order; on a valid hour it falls on the latest point's day, at that hour. */
  lemma PlaceholderShape(latest: PowerDataItem, i: int)
    requires 0 <= i < |Placeholders(latest)|
    ensures var p := Placeholders(latest)[i];
      p.hour == latest.hour + 1 + i && p.hour <= 23
      && p.value == 0.0 && p.month == latest.month && p.day == latest.day
    ensures var p := Placeholders(latest)[i];
      0 <= p.hour ==> DayNumber(p.date) == DayNumber(latest.date) && Hours(p.date) == p.hour
    ensures i == |Placeholders(latest)| - 1 ==> Placeholders(latest)[i].hour == 23
  {
    PlaceholdersFromAt(latest, latest.hour + 1, i);
    var h := latest.hour + 1 + i;
    if 0 <= h {
      SetHoursSameDay(latest.date, h, 0, 0);
    }
  }

  // ----------------------------------------------------------------- buckets

  /** `daysDifference`: whole days from `t` to the end of today, rounded down. */
  function DaysAgo(today: int, t: int): int
  {
    (EndOfDay(today) - t) / SecondsPerDay
  }

  /** A point as pushed into its bucket, with the fields the bubbles read. */
  datatype Bubble = Bubble(item: PowerDataItem, humanHour: Option<string>, yValue: int, humanDay: string)

  /** `hourlyPeriods[hour]`, which is `undefined` off the table. */
  function HourLabel(hour: int): (period: Option<string>)
    ensures period.Some? <==> 0 <= hour < 24
  {
    if 0 <= hour < |HourlyPeriods| then Some(HourlyPeriods[hour]) else None
  }

  /** `{...datapoint, humanHour, yValue: 1, humanDay}`. */
  function Tag(item: PowerDataItem, today: int): (b: Bubble)
    ensures b.item == item && b.yValue == 1
    ensures b.humanHour.Some? <==> 0 <= item.hour < 24
  {
    Bubble(item, HourLabel(item.hour), 1, ToWeekdayName(item.date, false, today))
  }

  /** Every bubble keeps its point and stands at height 1, labelled with its
      hour and its day name. */
  lemma TagFields(item: PowerDataItem, today: int)
    requires 0 <= item.hour < 24
    ensures Tag(item, today).item == item && Tag(item, today).yValue == 1
    ensures Tag(item, today).humanHour == Some(HourlyPeriods[item.hour])
    ensures Tag(item, today).humanDay == "Today" <==> DayNumber(item.date) == DayNumber(today)
  {
    WeekdayNameRule(item.date, false, today);
  }

  /** One step of the `forEach`: the point's bubble is appended to the bucket of
      its day, which is created when missing. */
  function AddBubble(buckets: map<int, seq<Bubble>>, item: PowerDataItem, today: int): map<int, seq<Bubble>>
  {
    var k := DaysAgo(today, item.date);
    buckets[k := (if k in buckets then buckets[k] else []) + [Tag(item, today)]]
  }

  /** `filteredData` after the `forEach` over `items`. */
  function Bucketed(items: seq<PowerDataItem>, today: int): (buckets: map<int, seq<Bubble>>)
    ensures forall k :: k in buckets ==> buckets[k] != []
    ensures forall k, i :: k in buckets && 0 <= i < |buckets[k]| ==> DaysAgo(today, buckets[k][i].item.date) == k
  {
    if items == [] then map[]
    else AddBubble(Bucketed(items[..|items| - 1], today), items[|items| - 1], today)
  }

  /** The points lying `k` days back, in input order. */
  function OnDay(items: seq<PowerDataItem>, today: int, k: int): (r: seq<PowerDataItem>)
    ensures |r| <= |items|
    ensures forall i :: 0 <= i < |r| ==> DaysAgo(today, r[i].date) == k
  {
    if items == [] then []
    else
      var last := items[|items| - 1];
      OnDay(items[..|items| - 1], today, k) + (if DaysAgo(today, last.date) == k then [last] else [])
  }

  /** The bubbles of some points, in order. */
  function TagAll(items: seq<PowerDataItem>, today: int): (r: seq<Bubble>)
    ensures |r| == |items|
    ensures forall i :: 0 <= i < |items| ==> r[i] == Tag(items[i], today)
  {
    if items == [] then [] else TagAll(items[..|items| - 1], today) + [Tag(items[|items| - 1], today)]
  }

  /** Bucket `k` exists exactly when some point lies `k` days back, and holds the
      bubbles of those points in input order: every point lands in exactly one
      bucket. */
  lemma {:induction false} BucketContents(items: seq<PowerDataItem>, today: int, k: int)
    ensures k in Bucketed(items, today) <==> OnDay(items, today, k) != []
    ensures k in Bucketed(items, today) ==> Bucketed(items, today)[k] == TagAll(OnDay(items, today, k), today)
  {
    if items != [] {
      var p := items[..|items| - 1];
      var x := items[|items| - 1];
      BucketContents(p, today, k);
      var f := OnDay(p, today, k);
      if DaysAgo(today, x.date) == k {
        assert OnDay(items, today, k) == f + [x];
        assert TagAll(f + [x], today) == TagAll(f, today) + [Tag(x, today)] by {
          assert (f + [x])[..|f|] == f;
        }
      } else {
        assert OnDay(items, today, k) == f;
      }
    }
  }

  /** Each point's bubble is in the bucket of its own day. */
  lemma {:induction false} PointInItsBucket(items: seq<PowerDataItem>, today: int, i: int)
    requires 0 <= i < |items|
    ensures DaysAgo(today, items[i].date) in Bucketed(items, today)
    ensures Tag(items[i], today) in Bucketed(items, today)[DaysAgo(today, items[i].date)]
  {
    var p := items[..|items| - 1];
    if i < |items| - 1 {
      PointInItsBucket(p, today, i);
      assert p[i] == items[i];
    }
  }

  /** On the latest point's day, the whole window lies within the last seven
      buckets (0 to 6), since it starts after `weekEarlier`. */
  lemma WindowWithinWeek(data: seq<PowerDataItem>, today: int, x: PowerDataItem)
    requires |data| > 0 && DayNumber(today) == DayNumber(data[|data| - 1].date)
    requires x in Window(data)
    ensures DaysAgo(today, x.date) <= 6
  {
    var s := Slice(data, |data| - 7 * 24, Some(|data|));
    AfterMembers(s, WeekEarlier(data[|data| - 1]), x);
    assert EndOfDay(today) == EndOfDay(data[|data| - 1].date);
  }

  /** When the latest point is from today, all its placeholders (for valid
      hours) land in bucket 0. */
  lemma PlaceholdersInBucketZero(latest: PowerDataItem, today: int, i: int)
    requires DayNumber(today) == DayNumber(latest.date) && latest.hour >= -1
    requires 0 <= i < |Placeholders(latest)|
    ensures DaysAgo(today, Placeholders(latest)[i].date) == 0
  {
    PlaceholderShape(latest, i);
    PlaceholdersFromAt(latest, latest.hour + 1, i);
    var p := Placeholders(latest)[i];
    SetHoursSameDay(latest.date, p.hour, 0, 0);
    SetHoursSameDay(today, 23, 59, 59);
    var d := DayNumber(today);
    assert p.date == d * SecondsPerDay + p.hour * SecondsPerHour;
    assert EndOfDay(today) == d * SecondsPerDay + 86399;
  }

  /** The `for` loop of `sortedData`: pushes the placeholders onto the window. */
  method CompleteDay(data: seq<PowerDataItem>) returns (reversedData: seq<PowerDataItem>)
    requires |data| > 0
    ensures reversedData == Window(data) + Placeholders(data[|data| - 1])
  {
    var latestDatapoint := data[|data| - 1];
    reversedData := Window(data);
    var hour := latestDatapoint.hour + 1;
    while hour <= 23
      invariant reversedData + PlaceholdersFrom(latestDatapoint, hour)
                == Window(data) + Placeholders(latestDatapoint)
      decreases 24 - hour
    {
      var date := SetHours(latestDatapoint.date, hour, 0, 0);
      reversedData := reversedData + [PowerDataItem(date, 0.0, latestDatapoint.month, latestDatapoint.day, hour)];
      hour := hour + 1;
    }
    assert PlaceholdersFrom(latestDatapoint, hour) == [];
  }

  /** The `forEach` of `sortedData`: pours the points into day buckets. */
  method Bucketize(reversedData: seq<PowerDataItem>, today: int) returns (filteredData: map<int, seq<Bubble>>)
    ensures filteredData == Bucketed(reversedData, today)
  {
    filteredData := map[];
    var idx := 0;
    while idx < |reversedData|
      invariant 0 <= idx <= |reversedData|
      invariant filteredData == Bucketed(reversedData[..idx], today)
    {
      var datapoint := reversedData[idx];
      var daysDifference := DaysAgo(today, datapoint.date);
      if daysDifference !in filteredData {
        filteredData := filteredData[daysDifference := []];
      }
      filteredData := filteredData[daysDifference := filteredData[daysDifference] + [Tag(datapoint, today)]];
      assert reversedData[..idx + 1][..idx] == reversedData[..idx];
      idx := idx + 1;
    }
    assert reversedData[..idx] == reversedData;
  }

  /** `sortedData`: the window, completed with placeholders, poured into day
      buckets. */
  method SortedData(data: seq<PowerDataItem>, today: int) returns (filteredData: map<int, seq<Bubble>>)
    requires |data| > 0
    ensures filteredData == Bucketed(Window(data) + Placeholders(data[|data| - 1]), today)
  {
    var reversedData := CompleteDay(data);
    filteredData := Bucketize(reversedData, today);
  }

  // -------------------------------------------------------- domain and means

  /** The largest of some numbers. */
  function MaxOf(xs: seq<real>): (m: real)
    requires xs != []
    ensures forall i :: 0 <= i < |xs| ==> xs[i] <= m
    ensures exists i :: 0 <= i < |xs| && xs[i] == m
  {
    if |xs| == 1 then xs[0]
    else
      var m := MaxOf(xs[..|xs| - 1]);
      if xs[|xs| - 1] > m then xs[|xs| - 1] else m
  }

  /** `maxDomain`: `Math.max` over every value of `data`, which is `-Infinity`
      for no data. */
  function MaxDomain(data: seq<PowerDataItem>): (m: Num)
    ensures data == [] <==> m == NegInf
    ensures data != [] ==>
      (m.Fin?
       && (forall i :: 0 <= i < |data| ==> data[i].value <= m.r)
       && (exists i :: 0 <= i < |data| && data[i].value == m.r))
  {
    if data == [] then NegInf
    else
      var vs := Values(data);
      var m := MaxOf(vs);
      assert forall i :: 0 <= i < |data| ==> vs[i] == data[i].value;
      Fin(m)
  }

  /** `.filter((d) => d > 0)`. */
  function Positives(xs: seq<real>): (r: seq<real>)
    ensures |r| <= |xs|
    ensures forall i :: 0 <= i < |r| ==> r[i] > 0.0
  {
    if xs == [] then []
    else Positives(xs[..|xs| - 1]) + (if xs[|xs| - 1] > 0.0 then [xs[|xs| - 1]] else [])
  }

  /** The values of a day's bubbles. */
  function BubbleValues(bucket: seq<Bubble>): (vs: seq<real>)
    ensures |vs| == |bucket|
    ensures forall i :: 0 <= i < |bucket| ==> vs[i] == bucket[i].item.value
  {
    if bucket == [] then [] else BubbleValues(bucket[..|bucket| - 1]) + [bucket[|bucket| - 1].item.value]
  }

  /** The mean shown beside a day: over the positive values only. */
  function DayMean(bucket: seq<Bubble>): Num
  {
    CalculateMean(Positives(BubbleValues(bucket)))
  }

  lemma {:induction false} PositivesAppend(xs: seq<real>, ys: seq<real>)
    ensures Positives(xs + ys) == Positives(xs) + Positives(ys)
  {
    if ys != [] {
      var zs := xs + ys;
      assert zs[..|zs| - 1] == xs + ys[..|ys| - 1];
      PositivesAppend(xs, ys[..|ys| - 1]);
    } else {
      assert xs + ys == xs;
    }
  }

  lemma {:induction false} PositivesOfNonPositive(ys: seq<real>)
    requires forall i :: 0 <= i < |ys| ==> ys[i] <= 0.0
    ensures Positives(ys) == []
  {
    if ys != [] {
      PositivesOfNonPositive(ys[..|ys| - 1]);
    }
  }

  lemma {:induction false} BubbleValuesAppend(a: seq<Bubble>, b: seq<Bubble>)
    ensures BubbleValues(a + b) == BubbleValues(a) + BubbleValues(b)
  {
    var l, r := BubbleValues(a + b), BubbleValues(a) + BubbleValues(b);
    assert |l| == |r|;
    forall i | 0 <= i < |l| ensures l[i] == r[i] {
      if i < |a| {
        assert (a + b)[i] == a[i];
      } else {
        assert (a + b)[i] == b[i - |a|];
      }
    }
  }

  /** Bubbles without a positive value (the placeholders, zero readings) never
      change a day's mean. */
  lemma DayMeanIgnoresZeros(bucket: seq<Bubble>, extra: seq<Bubble>)
    requires forall i :: 0 <= i < |extra| ==> extra[i].item.value <= 0.0
    ensures DayMean(bucket + extra) == DayMean(bucket)
  {
    BubbleValuesAppend(bucket, extra);
    PositivesAppend(BubbleValues(bucket), BubbleValues(extra));
    PositivesOfNonPositive(BubbleValues(extra));
    assert Positives(BubbleValues(bucket)) + [] == Positives(BubbleValues(bucket));
  }

  lemma {:induction false} SumOfPositives(xs: seq<real>)
    requires forall i :: 0 <= i < |xs| ==> xs[i] > 0.0
    ensures xs != [] ==> Sum(xs) > 0.0
    ensures xs == [] ==> Sum(xs) == 0.0
  {
    if xs != [] {
      SumOfPositives(xs[..|xs| - 1]);
    }
  }

  lemma PositiveFactor(x: real, n: real)
    requires n > 0.0 && x * n > 0.0
    ensures x > 0.0
  {
  }

  /** The mean of positive numbers is positive. */
  lemma MeanOfPositives(xs: seq<real>)
    requires xs != []
    requires forall i :: 0 <= i < |xs| ==> xs[i] > 0.0
    ensures CalculateMean(xs).Fin? && CalculateMean(xs).r > 0.0
  {
    SumOfPositives(xs);
    var m := CalculateMean(xs).r;
    PositiveFactor(m, |xs| as real);
  }

  /** A day's mean is `NaN` exactly when it has no positive value, and positive
      otherwise. */
  lemma DayMeanSign(bucket: seq<Bubble>)
    ensures DayMean(bucket) == NaN <==> Positives(BubbleValues(bucket)) == []
    ensures DayMean(bucket) != NaN ==> DayMean(bucket).Fin? && DayMean(bucket).r > 0.0
  {
    var ps := Positives(BubbleValues(bucket));
    if ps != [] {
      MeanOfPositives(ps);
    }
  }
}
