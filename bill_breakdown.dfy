/** The bill breakdown pie chart: one slice per charge of the projected bill,
    labelled with the charge's name, its share of the bill and its amount in
    whole dollars. The breakdown is a JavaScript object, modelled as its
    entries in key order. */
module BillBreakdown {
  import opened Js
  import opened Text
  import opened Utils
  import opened Types

  /** A JavaScript object's own keys are distinct. */
  predicate DistinctKeys(entries: Entries<real>)
  {
    forall i, j :: 0 <= i < j < |entries| ==> entries[i].0 != entries[j].0
  }

  /** `Object.keys(record)`. */
  function Keys(entries: Entries<real>): (ks: seq<string>)
    ensures |ks| == |entries|
    ensures forall i :: 0 <= i < |entries| ==> ks[i] == entries[i].0
  {
    if entries == [] then [] else [entries[0].0] + Keys(entries[1..])
  }

  /** `record[key]` for a key the record has: the value of its entry. */
  function Get(entries: Entries<real>, key: string): real
    requires key in Keys(entries)
  {
    if entries[0].0 == key then entries[0].1
    else
      assert forall i :: 1 <= i < |entries| ==> Keys(entries)[i] == Keys(entries[1..])[i - 1];
      Get(entries[1..], key)
  }

  /** With distinct keys, looking up an entry's key gives that entry's value. */
  lemma {:induction false} GetAt(entries: Entries<real>, i: int)
    requires DistinctKeys(entries) && 0 <= i < |entries|
    ensures entries[i].0 in Keys(entries)
    ensures Get(entries, entries[i].0) == entries[i].1
  {
    assert Keys(entries)[i] == entries[i].0;
    if i > 0 {
      var rest := entries[1..];
      assert rest[i - 1] == entries[i];
      assert DistinctKeys(rest) by {
        forall a, b | 0 <= a < b < |rest| ensures rest[a].0 != rest[b].0 {
          assert rest[a] == entries[a + 1] && rest[b] == entries[b + 1];
        }
      }
      GetAt(rest, i - 1);
    }
  }

  /** A slice of the pie: the amount and the charge's key. */
  datatype PieSlice = PieSlice(value: real, time: string)

  /** `Object.keys(record).map((key) => ({ value: record[key], time: key }))`. */
  function Slices(entries: Entries<real>): (r: seq<PieSlice>)
    ensures |r| == |entries|
    ensures forall i :: 0 <= i < |r| ==> r[i].time == entries[i].0
  {
    var ks := Keys(entries);
    seq(|ks|, i requires 0 <= i < |ks| => PieSlice(Get(entries, ks[i]), ks[i]))
  }

  /** One slice per charge, in key order, each with the charge's amount. */
  lemma SlicesFollowEntries(entries: Entries<real>)
    requires DistinctKeys(entries)
    ensures |Slices(entries)| == |entries|
    ensures forall i :: 0 <= i < |entries| ==> Slices(entries)[i] == PieSlice(entries[i].1, entries[i].0)
  {
    forall i | 0 <= i < |entries| ensures Slices(entries)[i] == PieSlice(entries[i].1, entries[i].0) {
      GetAt(entries, i);
    }
  }

  // ------------------------------------------------------------- labels

  /** `key.split("_").join(" ")`: the earlier chart's label name. */
  function PlainLabelName(key: string): string
  {
    Join(Split(key, '_'), ' ')
  }

  /** Every underscore of the key becomes a space and nothing else changes. */
  lemma PlainLabelNameRule(key: string)
    ensures PlainLabelName(key) == Replace(key, '_', ' ')
    ensures |PlainLabelName(key)| == |key| && '_' !in PlainLabelName(key)
  {
    SplitJoinReplaces(key, '_', ' ');
    var r := Replace(key, '_', ' ');
    assert forall i :: 0 <= i < |r| ==> r[i] != '_';
  }

  /** `titleCase(key.split("_").join(" "))`: the newer chart's label name. */
  function LabelName(key: string): string
  {
    TitleCase(PlainLabelName(key))
  }

  /** The label name is the key with underscores turned into spaces and
      title-cased: it has the key's length, a space for every underscore and
      no underscore left, and it matches the key letter for letter up to case. */
  lemma LabelNameRule(key: string)
    ensures LabelName(key) == TitleCase(Replace(key, '_', ' '))
    ensures |LabelName(key)| == |key| && '_' !in LabelName(key)
    ensures forall i :: 0 <= i < |key| && key[i] == '_' ==> LabelName(key)[i] == ' '
    ensures forall i :: 0 <= i < |key| && key[i] != '_' ==> Lower(LabelName(key)[i]) == Lower(key[i])
  {
    PlainLabelNameRule(key);
    var s := Replace(key, '_', ' ');
    forall i | 0 <= i < |key|
      ensures LabelName(key)[i] != '_'
      ensures key[i] == '_' ==> LabelName(key)[i] == ' '
      ensures key[i] != '_' ==> Lower(LabelName(key)[i]) == Lower(key[i])
    {
      TitleCaseAt(s, i);
      ClassesIgnoreCase(Lower(key[i]));
      ClassesIgnoreCase(key[i]);
    }
  }

  /** The "sales_tax" charge, as labelled by either chart. */
  lemma LabelNameExample(key: string)
    requires key == "sales_tax"
    ensures PlainLabelName(key) == "sales tax"
    ensures LabelName(key) == "Sales Tax"
  {
    PlainLabelNameRule(key);
    var r := Replace(key, '_', ' ');
    assert forall i :: 0 <= i < 9 ==> r[i] == "sales tax"[i];
    TitleCaseFromWordStarts(r, "Sales Tax");
  }

  /** `(value / total) * 100`: a charge's share of the bill in percent. */
  function Share(value: real, total: real): (p: Num)
    ensures total != 0.0 ==> p == Fin(value / total * 100.0)
    ensures total == 0.0 ==> !p.Fin?
  {
    Scale(Div(value, total), 100.0)
  }

  /** `${label}, ${share.toFixed(1)}%` for the slice at `index`. */
  function SliceLabel(entries: Entries<real>, index: int, value: real, total: real, titled: bool): (text: string)
    requires 0 <= index < |entries|
    ensures (if titled then LabelName(Keys(entries)[index]) else PlainLabelName(Keys(entries)[index])) <= text
    ensures |text| > 0 && text[|text| - 1] == '%'
  {
    var key := Keys(entries)[index];
    (if titled then LabelName(key) else PlainLabelName(key)) + ", " + ToFixed(Share(value, total), 1) + "%"
  }

  /** The shares of all slices, for a non-zero total. */
  function Shares(values: seq<real>, total: real): (ps: seq<real>)
    requires total != 0.0
    ensures |ps| == |values|
    ensures forall i :: 0 <= i < |values| ==> Fin(ps[i]) == Share(values[i], total)
  {
    if values == [] then []
    else Shares(values[..|values| - 1], total) + [values[|values| - 1] / total * 100.0]
  }

  /** The shares add up to the amounts' sum as a percentage of the total, so
      they make 100% exactly when the charges add up to the bill. */
  lemma {:induction false} SharesSum(values: seq<real>, total: real)
    requires total != 0.0
    ensures Sum(Shares(values, total)) == Sum(values) / total * 100.0
    ensures Sum(values) == total ==> Sum(Shares(values, total)) == 100.0
  {
    if values != [] {
      var init, last := values[..|values| - 1], values[|values| - 1];
      SharesSum(init, total);
      var ps := Shares(values, total);
      assert ps[..|ps| - 1] == Shares(init, total);
      assert Sum(ps) == Sum(init) / total * 100.0 + last / total * 100.0;
      assert Sum(values) == Sum(init) + last;
      DivAdd(Sum(init), last, total);
    }
  }

  lemma DivAdd(a: real, b: real, t: real)
    requires t != 0.0
    ensures a / t * 100.0 + b / t * 100.0 == (a + b) / t * 100.0
  {
  }

  /** With a zero total the share is not a number: "NaN%" for a zero amount,
      "Infinity%" for a positive one. */
  lemma ZeroTotalShare(entries: Entries<real>, index: int, value: real, titled: bool)
    requires 0 <= index < |entries|
    ensures var text := SliceLabel(entries, index, value, 0.0, titled);
      var name := if titled then LabelName(Keys(entries)[index]) else PlainLabelName(Keys(entries)[index]);
      text == name + ", " + (if value == 0.0 then "NaN" else if value > 0.0 then "Infinity" else "-Infinity") + "%"
  {
  }

  /** `$${x.toFixed(0)}`: an amount in whole dollars. */
  function Dollars(x: real): (text: string)
    ensures |text| >= 2 && text[0] == '$'
  {
    "$" + ToFixed(Fin(x), 0)
  }

  /** A non-negative amount shows as its nearest whole number of dollars,
      halves rounded up. */
  lemma DollarsRounds(x: real)
    requires x >= 0.0
    ensures Dollars(x) == "$" + NatToString(Round(x))
    ensures Round(x) as real - 0.5 <= x < Round(x) as real + 0.5
  {
    ToFixedZero(x);
  }
}
