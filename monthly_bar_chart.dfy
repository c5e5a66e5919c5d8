/** The monthly bar chart: the last twelve monthly totals as bars, one of
    which can be selected by clicking it and (in the newer copy) highlighted by
    hovering it. The handlers return the value they pass to the
    `onSelectedMonthChanged` / `onHighlightedMonthChanged` callbacks. */
module MonthlyBarChart {
  import opened Js
  import opened Calendar
  import opened Constants
  import opened Types
  import HourlyBarChart

  // ---------------------------------------------------------- selection

  /** `selectedIdx === idx ? null : idx`: a click selects the clicked bar,
      or clears the selection when that bar was the selected one. */
  function Toggle(selected: Option<int>, idx: int): (r: Option<int>)
    ensures r == None || r == Some(idx)
    ensures r == None <==> selected == Some(idx)
  {
    if selected == Some(idx) then None else Some(idx)
  }

  /** `selectedIdx === idx ? null : monthNames[evt.month]`: the month of the
      bar, or null for the selected bar. Both the click and the hover report
      this value. */
  function Report(selected: Option<int>, idx: int, item: PowerDataItem): (name: Option<string>)
    requires 0 <= item.month < 12
    ensures name.Some? ==> name.value in MonthNames
  {
    if selected == Some(idx) then None else Some(MonthNames[item.month])
  }

  /** A click selects bar `idx` exactly when it was not selected, so at most
      one bar is ever selected and a second click on the same bar undoes the
      first; the reported month is non-null exactly when the click selects,
      and it is then the clicked bar's month. */
  lemma ClickRule(selected: Option<int>, idx: int, item: PowerDataItem)
    requires 0 <= item.month < 12
    ensures Toggle(selected, idx) == Some(idx) <==> selected != Some(idx)
    ensures Toggle(selected, idx) == None <==> selected == Some(idx)
    ensures Toggle(Toggle(selected, idx), idx) == (if selected == Some(idx) then selected else None)
    ensures Report(selected, idx, item).Some? <==> Toggle(selected, idx) == Some(idx)
    ensures Report(selected, idx, item).Some? ==> Report(selected, idx, item).value == MonthNames[item.month]
  {
  }

  /** The newer chart: a selected and a highlighted bar. */
  class Chart {
    var selectedIdx: Option<int>
    var highlightedIdx: Option<int>

    /** `useState(data.length - 1)` and `useState(null)`. */
    constructor(data: seq<PowerDataItem>)
      ensures selectedIdx == Some(|data| - 1) && highlightedIdx == None
    {
      selectedIdx := Some(|data| - 1);
      highlightedIdx := None;
    }

    /** The bar's `onClick`; `item` is the clicked bar's data point. */
    method OnClick(item: PowerDataItem, idx: int) returns (reported: Option<string>)
      requires 0 <= item.month < 12
      modifies this
      ensures selectedIdx == Toggle(old(selectedIdx), idx)
      ensures highlightedIdx == old(highlightedIdx)
      ensures reported == Report(old(selectedIdx), idx, item)
    {
      reported := if selectedIdx == Some(idx) then None else Some(MonthNames[item.month]);
      selectedIdx := if selectedIdx == Some(idx) then None else Some(idx);
    }

    /** The bar's `onMouseEnter`: highlight it, report its month unless it
        is the selected bar. */
    method OnMouseEnter(item: PowerDataItem, idx: int) returns (reported: Option<string>)
      requires 0 <= item.month < 12
      modifies this
      ensures highlightedIdx == Some(idx)
      ensures selectedIdx == old(selectedIdx)
      ensures reported == Report(selectedIdx, idx, item)
    {
      highlightedIdx := Some(idx);
      reported := if selectedIdx == Some(idx) then None else Some(MonthNames[item.month]);
    }

    /** The bar's `onMouseLeave`: clear the highlight and report null. */
    method OnMouseLeave() returns (reported: Option<string>)
      modifies this
      ensures highlightedIdx == None
      ensures selectedIdx == old(selectedIdx)
      ensures reported == None
    {
      highlightedIdx := None;
      reported := None;
    }
  }

  /** The earlier chart: the click toggle only; its hover handlers do
      nothing, so no bar is ever highlighted. */
  class WebappChart {
    var selectedIdx: Option<int>
    var highlightedIdx: Option<int>

    constructor(data: seq<PowerDataItem>)
      ensures selectedIdx == Some(|data| - 1) && highlightedIdx == None
    {
      selectedIdx := Some(|data| - 1);
      highlightedIdx := None;
    }

    method OnClick(item: PowerDataItem, idx: int) returns (reported: Option<string>)
      requires 0 <= item.month < 12
      modifies this
      ensures selectedIdx == Toggle(old(selectedIdx), idx)
      ensures highlightedIdx == old(highlightedIdx)
      ensures reported == Report(old(selectedIdx), idx, item)
    {
      reported := if selectedIdx == Some(idx) then None else Some(MonthNames[item.month]);
      selectedIdx := if selectedIdx == Some(idx) then None else Some(idx);
    }

    /** The commented-out hover handlers. */
    method OnMouseEnter(item: PowerDataItem, idx: int)
      modifies this
      ensures selectedIdx == old(selectedIdx) && highlightedIdx == old(highlightedIdx)
    {
    }

    method OnMouseLeave()
      modifies this
      ensures selectedIdx == old(selectedIdx) && highlightedIdx == old(highlightedIdx)
    {
    }
  }

  // -------------------------------------------------------------- bars

  /** `data.slice(-12)`: the bars drawn. */
  function Last12(data: seq<PowerDataItem>): seq<PowerDataItem>
  {
    Slice(data, -12, None)
  }

  /** With a year or more of months, the last twelve are drawn. */
  lemma Last12Long(data: seq<PowerDataItem>)
    requires |data| >= 12
    ensures Last12(data) == data[|data| - 12..]
  {
  }

  /** With fewer than twelve months, all of them are drawn. */
  lemma Last12Short(data: seq<PowerDataItem>)
    requires |data| < 12
    ensures Last12(data) == data
  {
  }

  /** Bar `i` of the drawn bars is coloured as selected when `i` is the
      selected index (`idx === selectedIdx`). */
  predicate BarSelected(selected: Option<int>, i: int)
  {
    selected == Some(i)
  }

  /** The initial selection is an index into all of `data`, while bar
      indices count the drawn bars only: with at most twelve months the last
      bar starts selected, with more no drawn bar does. */
  lemma InitialSelection(data: seq<PowerDataItem>, i: int)
    requires 0 <= i < |Last12(data)|
    ensures BarSelected(Some(|data| - 1), i) <==> |data| <= 12 && i == |data| - 1
  {
    if |data| >= 12 {
      Last12Long(data);
    } else {
      Last12Short(data);
    }
  }

  // ------------------------------------------------------------- labels

  /** The tick names in use: one letter past four months of data, three
      letters otherwise (both remaining branches pick the same table). */
  function TickNames(len: int): seq<string>
  {
    if len > 4 then SuperAbbrevMonthNames
    else if len > 2 then AbbrevMonthNames
    else AbbrevMonthNames
  }

  /** The x-axis tick of a bar dated `date`. */
  function TickLabel(len: int, date: int): (tick: string)
    ensures |tick| == if len > 4 then 1 else 3
  {
    AbbreviationsArePrefixes();
    TickNames(len)[Month(date)]
  }

  /** Past four months of data a tick is the month's initial, otherwise its
      first three letters. */
  lemma TickAbbreviation(len: int, date: int)
    ensures len > 4 ==> TickLabel(len, date) == [MonthNames[Month(date)][0]]
    ensures len <= 4 ==> TickLabel(len, date) == MonthNames[Month(date)][..3]
  {
    AbbreviationsArePrefixes();
  }

  /** The earlier chart's tick: three letters whatever the number of months. */
  function WebappTickLabel(len: int, date: int): string
  {
    if len > 2 then AbbrevMonthNames[Month(date)] else AbbrevMonthNames[Month(date)]
  }

  lemma WebappTickAbbreviation(len: int, date: int)
    ensures WebappTickLabel(len, date) == MonthNames[Month(date)][..3]
    ensures |WebappTickLabel(len, date)| == 3
  {
    AbbreviationsArePrefixes();
  }

  // --------------------------------------------------------------- axis

  /** `Math.ceil((maxValue * 1.1) / 100)`: the number of 100 kWh steps. */
  function Steps(maxValue: real): int
  {
    Ceil(maxValue * 1.1 / 100.0)
  }

  /** The y-axis domain's upper end. */
  function YDomainTop(maxValue: real): (top: int)
    ensures top % 100 == 0
  {
    Steps(maxValue) * 100
  }

  /** The y-axis tick count. */
  function YTickCount(maxValue: real): int
  {
    Steps(maxValue) + 1
  }

  /** The axis ends at the first multiple of 100 at or above 110% of the
      largest month, with one tick every 100 kWh from 0. */
  lemma YDomainRule(maxValue: real)
    ensures YDomainTop(maxValue) % 100 == 0
    ensures maxValue * 1.1 <= YDomainTop(maxValue) as real < maxValue * 1.1 + 100.0
    ensures YTickCount(maxValue) == YDomainTop(maxValue) / 100 + 1
  {
    var n := Steps(maxValue);
    assert (n * 100) as real == n as real * 100.0;
    assert maxValue * 1.1 == maxValue * 1.1 / 100.0 * 100.0;
  }

  /** `maxValue` is taken over every month, drawn or not: each drawn bar
      fits under the axis, which may still be scaled to a month older than
      the twelve drawn. */
  lemma DrawnBarsFitAxis(data: seq<PowerDataItem>, i: int)
    requires data != [] && 0 <= i < |Last12(data)|
    ensures Last12(data)[i].value <= HourlyBarChart.MaxValue(data)
    ensures Last12(data)[i].value * 1.1 <= YDomainTop(HourlyBarChart.MaxValue(data)) as real
  {
    var m := HourlyBarChart.MaxValue(data);
    if |data| >= 12 {
      Last12Long(data);
      assert Last12(data)[i] == data[|data| - 12 + i];
    } else {
      Last12Short(data);
    }
    YDomainRule(m);
    assert Last12(data)[i].value * 1.1 <= m * 1.1;
  }
}
