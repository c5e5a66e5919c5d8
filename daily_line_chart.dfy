/** The daily line chart: one line per month name, the days of that month in
    order, optionally as a running total, with the selected (or, by default,
    the latest) month drawn as active. */
module DailyLineChart {
  import opened Js
  import opened Calendar
  import opened Constants
  import opened Types

  /** `monthNames[datarow.date.getMonth()]`. */
  function MonthName(item: PowerDataItem): (name: string)
    ensures name in MonthNames
  {
    MonthNames[Month(item.date)]
  }

  /** `currentMonth`: the month name of the last data point. */
  function CurrentMonth(data: seq<PowerDataItem>): (name: string)
    requires |data| > 0
    ensures name in MonthNames
  {
    MonthName(data[|data| - 1])
  }

  // ---------------------------------------------------------------- grouping

  /** The `result` object of `sortedData`: its keys in insertion order and the
      line stored under each key. */
  datatype Groups<K> = Groups(keys: seq<K>, lines: map<K, seq<PowerDataItem>>)

  /** No line is empty: every key is created together with its first point. */
  predicate NonEmptyLines<K>(g: Groups<K>)
  {
    forall k :: k in g.lines ==> |g.lines[k]| > 0
  }

  /** Besides, keys are listed once each and are exactly the keys of the map. */
  predicate Valid<K>(g: Groups<K>)
  {
    (forall i, j :: 0 <= i < j < |g.keys| ==> g.keys[i] != g.keys[j])
    && (forall k :: k in g.lines ==> k in g.keys)
    && (forall i :: 0 <= i < |g.keys| ==> g.keys[i] in g.lines)
    && NonEmptyLines(g)
  }

  // The grouping below is stated for any key function; the chart groups by
  // `MonthName`.

  /** One step of the `forEach`: a new key starts a line with the row itself;
      otherwise the row is appended, its value replaced by the rounded sum with
      the line's last value when `cumulative` is on. */
  function AddRow<K>(g: Groups<K>, row: PowerDataItem, cumulative: bool, key: PowerDataItem -> K): (r: Groups<K>)
    requires NonEmptyLines(g)
    ensures NonEmptyLines(r)
  {
    var name := key(row);
    if name !in g.lines then Groups(g.keys + [name], g.lines[name := [row]])
    else
      var line := g.lines[name];
      if cumulative then
        Groups(g.keys, g.lines[name := line + [row.(value := Round(line[|line| - 1].value + row.value) as real)]])
      else Groups(g.keys, g.lines[name := line + [row]])
  }

  /** The `result` after the `forEach` over `data`. */
  function Grouped<K>(data: seq<PowerDataItem>, cumulative: bool, key: PowerDataItem -> K): (g: Groups<K>)
    ensures NonEmptyLines(g)
  {
    if data == [] then Groups([], map[])
    else AddRow(Grouped(data[..|data| - 1], cumulative, key), data[|data| - 1], cumulative, key)
  }

  /** Each step keeps the keys listed once each and in step with the map. */
  lemma AddRowValid<K>(g: Groups<K>, row: PowerDataItem, cumulative: bool, key: PowerDataItem -> K)
    requires Valid(g)
    ensures Valid(AddRow(g, row, cumulative, key))
  {
  }

  /** The grouping of any data is well formed. */
  lemma {:induction false} GroupedValid<K>(data: seq<PowerDataItem>, cumulative: bool, key: PowerDataItem -> K)
    ensures Valid(Grouped(data, cumulative, key))
  {
    if data != [] {
      GroupedValid(data[..|data| - 1], cumulative, key);
      AddRowValid(Grouped(data[..|data| - 1], cumulative, key), data[|data| - 1], cumulative, key);
    }
  }

  /** Extending the data by one row is one more `AddRow`. */
  lemma GroupedStep<K>(data: seq<PowerDataItem>, idx: int, cumulative: bool, key: PowerDataItem -> K)
    requires 0 <= idx < |data|
    ensures Grouped(data[..idx + 1], cumulative, key)
            == AddRow(Grouped(data[..idx], cumulative, key), data[idx], cumulative, key)
  {
    assert data[..idx + 1][..idx] == data[..idx];
  }

  /** `sortedData`: fills the dictionary in place, one row at a time. The key
      of a row is given as `key`; the chart passes `MonthName`. */
  method SortedData<K>(data: seq<PowerDataItem>, cumulative: bool, key: PowerDataItem -> K)
    returns (sorted: Groups<K>)
    ensures sorted == Grouped(data, cumulative, key)
  {
    var keys: seq<K> := [];
    var result: map<K, seq<PowerDataItem>> := map[];
    var idx := 0;
    while idx < |data|
      invariant 0 <= idx <= |data|
      invariant Groups(keys, result) == Grouped(data[..idx], cumulative, key)
    {
      var datarow := data[idx];
      var monthName := key(datarow);
      ghost var next := AddRow(Groups(keys, result), datarow, cumulative, key);
      if monthName !in result {
        result := result[monthName := [datarow]];
        keys := keys + [monthName];
      } else if cumulative {
        var previousValue := result[monthName][|result[monthName]| - 1].value;
        var cumulativeValue := Round(previousValue + datarow.value) as real;
        result := result[monthName := result[monthName] + [datarow.(value := cumulativeValue)]];
      } else {
        result := result[monthName := result[monthName] + [datarow]];
      }
      assert Groups(keys, result) == next;
      GroupedStep(data, idx, cumulative, key);
      idx := idx + 1;
    }
    assert data[..idx] == data;
    sorted := Groups(keys, result);
  }

  /** The data points with one key, in input order (for month names: that
      month of every year). */
  function OfKey<K(==)>(data: seq<PowerDataItem>, name: K, key: PowerDataItem -> K): (items: seq<PowerDataItem>)
    ensures |items| <= |data|
  {
    if data == [] then []
    else
      var last := data[|data| - 1];
      OfKey(data[..|data| - 1], name, key) + (if key(last) == name then [last] else [])
  }

  /** A running total rounded at every step: the first point unchanged, every
      later one carrying `Math.round(previous total + its value)`. */
  function Accumulate(items: seq<PowerDataItem>): (acc: seq<PowerDataItem>)
    ensures |acc| == |items|
  {
    if |items| <= 1 then items
    else
      var prev := Accumulate(items[..|items| - 1]);
      var last := items[|items| - 1];
      prev + [last.(value := Round(prev[|prev| - 1].value + last.value) as real)]
  }

  /** A point with another key leaves the line of `name` as it was. */
  lemma GroupedOtherKey<K>(data: seq<PowerDataItem>, cumulative: bool, key: PowerDataItem -> K, name: K)
    requires data != [] && key(data[|data| - 1]) != name
    ensures var g := Grouped(data[..|data| - 1], cumulative, key);
      var h := Grouped(data, cumulative, key);
      (name in h.lines <==> name in g.lines) && (name in g.lines ==> h.lines[name] == g.lines[name])
  {
  }

  /** A point with key `name` starts its line or is appended to it, as a rounded
      running total when `cumulative` is on. */
  lemma GroupedSameKey<K>(data: seq<PowerDataItem>, cumulative: bool, key: PowerDataItem -> K, name: K)
    requires data != [] && key(data[|data| - 1]) == name
    ensures var g := Grouped(data[..|data| - 1], cumulative, key);
      var h := Grouped(data, cumulative, key);
      var x := data[|data| - 1];
      name in h.lines
      && (name !in g.lines ==> h.lines[name] == [x])
      && (name in g.lines && cumulative ==>
            h.lines[name] == g.lines[name] + [x.(value := Round(g.lines[name][|g.lines[name]| - 1].value + x.value) as real)])
      && (name in g.lines && !cumulative ==> h.lines[name] == g.lines[name] + [x])
  {
  }

  /** A running total grows by one point: its value is the rounded sum of the
      last total and the new value. */
  lemma AccumulateSnoc(items: seq<PowerDataItem>, x: PowerDataItem)
    requires items != []
    ensures var acc := Accumulate(items);
      Accumulate(items + [x]) == acc + [x.(value := Round(acc[|acc| - 1].value + x.value) as real)]
  {
    assert (items + [x])[..|items|] == items;
  }

  /** The line of `name` in the grouping of `data` is what `OfKey` and
      `Accumulate` describe. */
  predicate LinesMatch<K(==)>(data: seq<PowerDataItem>, cumulative: bool, key: PowerDataItem -> K, name: K)
  {
    var g := Grouped(data, cumulative, key);
    (name in g.lines <==> OfKey(data, name, key) != [])
    && (name in g.lines ==>
          g.lines[name] == (if cumulative then Accumulate(OfKey(data, name, key)) else OfKey(data, name, key)))
  }

  lemma LinesStepSame<K>(data: seq<PowerDataItem>, cumulative: bool, key: PowerDataItem -> K, name: K)
    requires data != [] && key(data[|data| - 1]) == name
    requires LinesMatch(data[..|data| - 1], cumulative, key, name)
    ensures LinesMatch(data, cumulative, key, name)
  {
    var f := OfKey(data[..|data| - 1], name, key);
    var x := data[|data| - 1];
    GroupedSameKey(data, cumulative, key, name);
    assert OfKey(data, name, key) == f + [x];
    if f != [] {
      AccumulateSnoc(f, x);
    }
  }

  lemma LinesStepOther<K>(data: seq<PowerDataItem>, cumulative: bool, key: PowerDataItem -> K, name: K)
    requires data != [] && key(data[|data| - 1]) != name
    requires LinesMatch(data[..|data| - 1], cumulative, key, name)
    ensures LinesMatch(data, cumulative, key, name)
  {
    GroupedOtherKey(data, cumulative, key, name);
    assert OfKey(data, name, key) == OfKey(data[..|data| - 1], name, key);
  }

  /** Each key's line is the points with that key in input order, turned into
      a rounded running total when `cumulative` is on; a key has a line exactly
      when some point has it. */
  lemma {:induction false} GroupedLines<K>(data: seq<PowerDataItem>, cumulative: bool, key: PowerDataItem -> K, name: K)
    ensures name in Grouped(data, cumulative, key).lines <==> OfKey(data, name, key) != []
    ensures name in Grouped(data, cumulative, key).lines ==>
      Grouped(data, cumulative, key).lines[name] ==
        (if cumulative then Accumulate(OfKey(data, name, key)) else OfKey(data, name, key))
  {
    if data != [] {
      GroupedLines(data[..|data| - 1], cumulative, key, name);
      if key(data[|data| - 1]) == name {
        LinesStepSame(data, cumulative, key, name);
      } else {
        LinesStepOther(data, cumulative, key, name);
      }
    }
  }

  /** The first position of a key in `data`, or `|data|` when it never occurs. */
  function FirstIndex<K(==)>(data: seq<PowerDataItem>, name: K, key: PowerDataItem -> K): (n: nat)
    ensures n <= |data|
    ensures n < |data| ==> key(data[n]) == name
    ensures forall m :: 0 <= m < n ==> key(data[m]) != name
  {
    if data == [] then 0
    else if key(data[0]) == name then 0
    else 1 + FirstIndex(data[1..], name, key)
  }

  /** Appending a point does not move a key's first position, and a key that
      did not occur before first occurs at the new point when it has that key. */
  lemma {:induction false} FirstIndexExtend<K>(data: seq<PowerDataItem>, x: PowerDataItem, name: K, key: PowerDataItem -> K)
    ensures FirstIndex(data, name, key) < |data| ==> FirstIndex(data + [x], name, key) == FirstIndex(data, name, key)
    ensures FirstIndex(data, name, key) == |data| ==>
      FirstIndex(data + [x], name, key) == if key(x) == name then |data| else |data| + 1
  {
    if data != [] {
      assert (data + [x])[0] == data[0];
      if key(data[0]) != name {
        assert (data + [x])[1..] == data[1..] + [x];
        FirstIndexExtend(data[1..], x, name, key);
      }
    }
  }

  /** The keys of the grouping after one more point: a new key is appended. */
  lemma GroupedKeysStep<K>(data: seq<PowerDataItem>, cumulative: bool, key: PowerDataItem -> K)
    requires data != []
    ensures var g := Grouped(data[..|data| - 1], cumulative, key);
      var x := data[|data| - 1];
      Grouped(data, cumulative, key).keys == if key(x) in g.keys then g.keys else g.keys + [key(x)]
  {
    GroupedValid(data[..|data| - 1], cumulative, key);
  }

  /** A key is listed exactly when some point has it. */
  lemma {:induction false} GroupedKeysOccur<K>(data: seq<PowerDataItem>, cumulative: bool, key: PowerDataItem -> K)
    ensures forall k :: k in Grouped(data, cumulative, key).keys <==> FirstIndex(data, k, key) < |data|
  {
    if data != [] {
      var p := data[..|data| - 1];
      var x := data[|data| - 1];
      assert data == p + [x];
      GroupedKeysOccur(p, cumulative, key);
      GroupedKeysStep(data, cumulative, key);
      forall k ensures k in Grouped(data, cumulative, key).keys <==> FirstIndex(data, k, key) < |data| {
        FirstIndexExtend(p, x, k, key);
      }
    }
  }

  /** The lines appear in the order in which their keys first occur in the
      data, one line for each key that occurs. */
  lemma {:induction false} GroupedKeys<K>(data: seq<PowerDataItem>, cumulative: bool, key: PowerDataItem -> K)
    ensures forall k :: k in Grouped(data, cumulative, key).keys <==> FirstIndex(data, k, key) < |data|
    ensures var keys := Grouped(data, cumulative, key).keys;
      forall i, j :: 0 <= i < j < |keys| ==> FirstIndex(data, keys[i], key) < FirstIndex(data, keys[j], key)
  {
    GroupedKeysOccur(data, cumulative, key);
    if data != [] {
      var p := data[..|data| - 1];
      var x := data[|data| - 1];
      assert data == p + [x];
      GroupedKeys(p, cumulative, key);
      GroupedKeysStep(data, cumulative, key);
      var g := Grouped(p, cumulative, key);
      var keys := Grouped(data, cumulative, key).keys;
      forall i, j | 0 <= i < j < |keys|
        ensures FirstIndex(data, keys[i], key) < FirstIndex(data, keys[j], key)
      {
        var ki, kj := keys[i], keys[j];
        assert ki == g.keys[i];
        assert FirstIndex(p, ki, key) < |p|;
        FirstIndexExtend(p, x, ki, key);
        FirstIndexExtend(p, x, kj, key);
        assert FirstIndex(data, ki, key) == FirstIndex(p, ki, key);
        if j < |g.keys| {
          assert kj == g.keys[j];
          assert FirstIndex(p, ki, key) < FirstIndex(p, kj, key) < |p|;
          assert FirstIndex(data, kj, key) == FirstIndex(p, kj, key);
        } else {
          assert kj == key(x) && kj !in g.keys;
          assert FirstIndex(data, kj, key) == |p|;
        }
      }
    }
  }

  /** The latest point ends the line of its key, so `currentMonth` always has a line. */
  lemma CurrentMonthEndsItsLine<K>(data: seq<PowerDataItem>, cumulative: bool, key: PowerDataItem -> K)
    requires |data| > 0
    ensures key(data[|data| - 1]) in Grouped(data, cumulative, key).lines
    ensures var line := Grouped(data, cumulative, key).lines[key(data[|data| - 1])];
      line[|line| - 1].date == data[|data| - 1].date
  {
  }

  /** Only the values change in a running total: point `i > 0` carries the
      rounded sum of its own value and the previous total. */
  lemma {:induction false} AccumulateAt(items: seq<PowerDataItem>, i: int)
    requires 0 <= i < |items|
    ensures i == 0 ==> Accumulate(items)[i] == items[i]
    ensures i > 0 ==>
      (Accumulate(items)[i] == items[i].(value := Round(Accumulate(items)[i - 1].value + items[i].value) as real))
  {
    if |items| > 1 && i < |items| - 1 {
      AccumulateAt(items[..|items| - 1], i);
      var prev := Accumulate(items[..|items| - 1]);
      assert Accumulate(items)[..|items| - 1] == prev;
    }
  }

  /** A sum of whole numbers is a whole number. */
  lemma {:induction false} IntegralSum(xs: seq<real>)
    requires forall n :: 0 <= n < |xs| ==> xs[n] == xs[n].Floor as real
    ensures Sum(xs) == Sum(xs).Floor as real
  {
    if xs != [] {
      IntegralSum(xs[..|xs| - 1]);
      var s := Sum(xs[..|xs| - 1]);
      var x := xs[|xs| - 1];
      assert Sum(xs) == s + x;
      assert s + x == (s.Floor + x.Floor) as real;
    }
  }

  /** Rounding a whole number leaves it unchanged. */
  lemma RoundWhole(x: real)
    requires x == x.Floor as real
    ensures Round(x) as real == x
  {
    var k := x.Floor;
    var n := Round(x);
    assert (n - k) as real <= 0.5 && (k - n) as real < 0.5;
  }

  lemma ValuesPrefixSum(items: seq<PowerDataItem>, i: int)
    requires 0 <= i < |items|
    ensures Sum(Values(items[..i + 1])) == Sum(Values(items[..i])) + items[i].value
  {
    var vs := Values(items[..i + 1]);
    assert vs[..i] == Values(items[..i]);
  }

  /** On whole-number readings the rounding is exact: point `i` carries the sum
      of the values of points `0..i`. */
  lemma {:induction false} AccumulateIsRunningSum(items: seq<PowerDataItem>, i: int)
    requires forall n :: 0 <= n < |items| ==> items[n].value == items[n].value.Floor as real
    requires 0 <= i < |items|
    ensures Accumulate(items)[i].value == Sum(Values(items[..i + 1]))
  {
    AccumulateAt(items, i);
    ValuesPrefixSum(items, i);
    if i == 0 {
      assert Values(items[..0]) == [];
    } else {
      AccumulateIsRunningSum(items, i - 1);
      var prefix := Values(items[..i]);
      IntegralSum(prefix);
      var total := Sum(prefix) + items[i].value;
      assert total == (Sum(prefix).Floor + items[i].value.Floor) as real;
      RoundWhole(total);
    }
  }

  /** Daily readings 1, 2, 3 of one month are drawn cumulatively as 1, 3, 6. */
  lemma AccumulateExample(a: PowerDataItem, b: PowerDataItem, c: PowerDataItem)
    requires a.value == 1.0 && b.value == 2.0 && c.value == 3.0
    ensures Values(Accumulate([a, b, c])) == [1.0, 3.0, 6.0]
  {
    assert [a, b, c][..2] == [a, b];
    assert [a, b][..1] == [a];
    assert Accumulate([a]) == [a];
    assert Round(1.0 + 2.0) == 3;
    var b3 := b.(value := 3.0);
    assert Accumulate([a, b]) == [a, b3];
    assert Round(3.0 + 3.0) == 6;
    assert Accumulate([a, b, c]) == [a, b3, c.(value := 6.0)];
  }

  // ----------------------------------------------------------- line styling

  /** The optional `selectedMonth` / `highlightedMonth` prop: absent, `null`, or a month name. */
  datatype Selection = Undefined | Null | Named(name: string)

  /** A line is drawn active when it is the selected month, or when nothing has
      been chosen yet (`undefined`) and it is the latest month. */
  predicate LineActive(selected: Selection, currentMonth: string, monthName: string)
  {
    selected == Named(monthName) || (currentMonth == monthName && selected == Undefined)
  }

  /** The three opacities of the newer chart: active, fully opaque when hovered
      from the bar chart, and half the inactive opacity otherwise. */
  datatype Opacity = ActiveOpacity | Opaque | HalfInactiveOpacity | InactiveOpacity

  /** `strokeOpacity` of a line in the newer chart. */
  function LineOpacity(selected: Selection, highlighted: Selection, currentMonth: string, monthName: string): (o: Opacity)
    ensures o == ActiveOpacity <==> LineActive(selected, currentMonth, monthName)
    ensures o == Opaque <==> !LineActive(selected, currentMonth, monthName) && highlighted == Named(monthName)
    ensures o != InactiveOpacity
  {
    if selected == Named(monthName) then ActiveOpacity
    else if currentMonth == monthName && selected == Undefined then ActiveOpacity
    else if highlighted == Named(monthName) then Opaque
    else HalfInactiveOpacity
  }

  /** `strokeOpacity` of a line in the older chart, which has no hover highlight. */
  function LegacyLineOpacity(selected: Selection, currentMonth: string, monthName: string): (o: Opacity)
    ensures o == ActiveOpacity <==> LineActive(selected, currentMonth, monthName)
    ensures o == ActiveOpacity || o == InactiveOpacity
  {
    if selected == Named(monthName) then ActiveOpacity
    else if currentMonth == monthName && selected == Undefined then ActiveOpacity
    else InactiveOpacity
  }

  /** At most one line is active; none when the selection is `null`; the latest
      month's line when it is `undefined`. */
  lemma ActiveLineRule(selected: Selection, currentMonth: string, a: string, b: string)
    ensures LineActive(selected, currentMonth, a) && LineActive(selected, currentMonth, b) ==> a == b
    ensures selected == Null ==> !LineActive(selected, currentMonth, a)
    ensures selected == Undefined ==> (LineActive(selected, currentMonth, a) <==> a == currentMonth)
    ensures selected.Named? ==> (LineActive(selected, currentMonth, a) <==> a == selected.name)
  {
  }

  // ------------------------------------------------------------ components

  /** The newer chart's state: the `cumulative` cell, switched by a toggle group. */
  class Chart {
    var cumulative: bool

    constructor ()
      ensures cumulative
    {
      cumulative := true;
    }

    /** The toggle group's `onChange`: "daily" and "cumulative" set the mode;
        any other value (or none, when the pressed button is clicked again)
        leaves it. */
    method OnToggle(newValue: Option<string>)
      modifies this
      ensures newValue == Some("daily") ==> !cumulative
      ensures newValue == Some("cumulative") ==> cumulative
      ensures newValue != Some("daily") && newValue != Some("cumulative") ==> cumulative == old(cumulative)
    {
      if newValue == Some("daily") {
        cumulative := false;
      } else if newValue == Some("cumulative") {
        cumulative := true;
      }
    }

    /** The lines drawn for `data` in the current mode. */
    method Lines(data: seq<PowerDataItem>) returns (sorted: Groups<string>)
      ensures Valid(sorted)
      ensures forall k :: k in sorted.keys <==> FirstIndex(data, k, MonthName) < |data|
      ensures forall i, j :: 0 <= i < j < |sorted.keys| ==>
        FirstIndex(data, sorted.keys[i], MonthName) < FirstIndex(data, sorted.keys[j], MonthName)
      ensures forall k :: k in sorted.lines ==>
        sorted.lines[k] == (if cumulative then Accumulate(OfKey(data, k, MonthName)) else OfKey(data, k, MonthName))
    {
      sorted := SortedData(data, cumulative, MonthName);
      GroupedValid(data, cumulative, MonthName);
      GroupedKeys(data, cumulative, MonthName);
      forall k | k in sorted.lines
        ensures sorted.lines[k] == (if cumulative then Accumulate(OfKey(data, k, MonthName)) else OfKey(data, k, MonthName))
      {
        GroupedLines(data, cumulative, MonthName, k);
      }
    }
  }

  /** The older chart's state: `cumulative`, flipped by a switch, and
      `currentMonth`, computed once from the first data it was given. */
  class LegacyChart {
    var cumulative: bool
    const currentMonth: string

    constructor (data: seq<PowerDataItem>)
      requires |data| > 0
      ensures cumulative && currentMonth == CurrentMonth(data)
    {
      cumulative := true;
      currentMonth := CurrentMonth(data);
    }

    /** The switch's `onChange`: flips the mode, so two changes restore it. */
    method OnToggle()
      modifies this
      ensures cumulative == !old(cumulative)
    {
      cumulative := !cumulative;
    }
  }
}
