/** The dashboard's formatting and statistics helpers: title case, ordinal
    suffixes, the arithmetic mean, the Today/Yesterday/weekday naming rule and
    the h/d/wk rendering of a number of hours. */
module Utils {
  import opened Text
  import opened Js
  import opened Calendar
  import opened Constants

  // ---------------------------------------------------------------- titleCase

  /** The regular-expression class `\s`: white space and line terminators. */
  predicate IsSpace(c: char)
  {
    c == ' ' || c == '\t' || c == '\n' || c == '\r' || c == '\U{000B}' || c == '\U{000C}'
    || c == '\U{00A0}' || c == '\U{1680}' || ('\U{2000}' <= c <= '\U{200A}')
    || c == '\U{2028}' || c == '\U{2029}' || c == '\U{202F}' || c == '\U{205F}'
    || c == '\U{3000}' || c == '\U{FEFF}'
  }

  /** The regular-expression class `\w`: ASCII letters, digits and `_`. */
  predicate IsWordChar(c: char)
  {
    IsUpper(c) || IsLower(c) || ('0' <= c <= '9') || c == '_'
  }

  /** `s.toUpperCase()`, ASCII letters only. */
  function UpperString(s: string): (r: string)
    ensures |r| == |s|
    ensures forall i :: 0 <= i < |s| ==> r[i] == Upper(s[i])
  {
    if s == [] then "" else [Upper(s[0])] + UpperString(s[1..])
  }

  /** The length of the match of `/(?:^|\s)\w/` that starts at `pos`, or 0 when
      none does: the `^` alternative is tried first and only at the very start. */
  function MatchLength(s: string, pos: nat): (n: nat)
    requires pos <= |s|
    ensures pos + n <= |s|
    ensures n == 0 || n == 1 || n == 2
  {
    if pos == 0 && pos < |s| && IsWordChar(s[pos]) then 1
    else if pos + 1 < |s| && IsSpace(s[pos]) && IsWordChar(s[pos + 1]) then 2
    else 0
  }

  /** `s.replace(/(?:^|\s)\w/g, m => m.toUpperCase())` from position `pos` on:
      the scan tries a match at each position and resumes after each match. */
  function UpperWordStartsFrom(s: string, pos: nat): (r: string)
    requires pos <= |s|
    ensures |r| == |s| - pos
    decreases |s| - pos
  {
    if pos == |s| then ""
    else
      var n := MatchLength(s, pos);
      if n == 0 then [s[pos]] + UpperWordStartsFrom(s, pos + 1)
      else UpperString(s[pos..pos + n]) + UpperWordStartsFrom(s, pos + n)
  }

  /** `titleCase(input)`: lower-case everything, then upper-case each word start. */
  function TitleCase(input: string): (r: string)
    ensures |r| == |input|
  {
    UpperWordStartsFrom(LowerString(input), 0)
  }

  /** Position `i` starts a word: a word character at the start or after white space. */
  predicate WordStart(s: string, i: int)
    requires 0 <= i < |s|
  {
    IsWordChar(s[i]) && (i == 0 || IsSpace(s[i - 1]))
  }

  /** No character is both white space and a word character. */
  lemma SpaceIsNotWord(c: char)
    ensures !(IsSpace(c) && IsWordChar(c))
  {
  }

  /** Where the scan resumes after trying a match at `pos`. */
  function NextPos(s: string, pos: nat): (next: nat)
    requires pos < |s|
    ensures pos < next <= |s|
  {
    var n := MatchLength(s, pos);
    if n == 0 then pos + 1 else pos + n
  }

  /** One step of the scan: the text consumed at `pos`, then the rest. */
  lemma UpperWordStartsStep(s: string, pos: nat)
    requires pos < |s|
    ensures UpperWordStartsFrom(s, pos)
      == (if MatchLength(s, pos) == 0 then [s[pos]] else UpperString(s[pos..NextPos(s, pos)]))
         + UpperWordStartsFrom(s, NextPos(s, pos))
  {
  }

  /** Inside the text consumed at `pos`, exactly the word starts are upper-cased. */
  lemma UpperWordStartsInMatch(s: string, pos: nat, i: int)
    requires pos < |s| && pos <= i < NextPos(s, pos)
    requires pos == 0 || !WordStart(s, pos)
    ensures (if MatchLength(s, pos) == 0 then [s[pos]] else UpperString(s[pos..NextPos(s, pos)]))[i - pos]
      == if WordStart(s, i) then Upper(s[i]) else s[i]
  {
    SpaceIsNotWord(s[pos]);
  }

  /** The scan never resumes at a word start: the match it skipped would have
      covered it. */
  lemma NextPosNotWordStart(s: string, pos: nat)
    requires pos < |s| && NextPos(s, pos) < |s|
    ensures !WordStart(s, NextPos(s, pos))
  {
    SpaceIsNotWord(s[pos]);
    SpaceIsNotWord(s[pos + 1]);
  }

  lemma {:induction false} UpperWordStartsAt(s: string, pos: nat, i: int)
    requires pos <= i < |s|
    requires pos == 0 || !WordStart(s, pos)
    ensures UpperWordStartsFrom(s, pos)[i - pos] == if WordStart(s, i) then Upper(s[i]) else s[i]
    decreases |s| - pos
  {
    var next := NextPos(s, pos);
    UpperWordStartsStep(s, pos);
    if i < next {
      UpperWordStartsInMatch(s, pos, i);
    } else {
      NextPosNotWordStart(s, pos);
      UpperWordStartsAt(s, next, i);
    }
  }

  /** The character classes ignore ASCII case. */
  lemma ClassesIgnoreCase(c: char)
    ensures IsWordChar(Lower(c)) == IsWordChar(c) && IsSpace(Lower(c)) == IsSpace(c)
    ensures IsWordChar(Upper(c)) == IsWordChar(c) && IsSpace(Upper(c)) == IsSpace(c)
    ensures Lower(Upper(c)) == Lower(c) && Lower(Lower(c)) == Lower(c)
  {
  }

  /** Character by character, `titleCase` upper-cases exactly the word starts of
      the input and lower-cases every other character. */
  lemma TitleCaseAt(s: string, i: int)
    requires 0 <= i < |s|
    ensures TitleCase(s)[i] == if WordStart(s, i) then Upper(Lower(s[i])) else Lower(s[i])
  {
    var l := LowerString(s);
    UpperWordStartsAt(l, 0, i);
    ClassesIgnoreCase(s[i]);
    if i > 0 {
      ClassesIgnoreCase(s[i - 1]);
    }
  }

  /** Outside word starts no upper-case letter survives. */
  lemma TitleCaseLowerElsewhere(s: string, i: int)
    requires 0 <= i < |s| && !WordStart(s, i)
    ensures !IsUpper(TitleCase(s)[i])
  {
    TitleCaseAt(s, i);
  }

  /** Applying `titleCase` twice changes nothing more. */
  lemma TitleCaseIdempotent(s: string)
    ensures TitleCase(TitleCase(s)) == TitleCase(s)
  {
    var t := TitleCase(s);
    forall i | 0 <= i < |s| ensures TitleCase(t)[i] == t[i] {
      TitleCaseAt(s, i);
      TitleCaseAt(t, i);
      ClassesIgnoreCase(Lower(s[i]));
      if i > 0 {
        TitleCaseAt(s, i - 1);
        ClassesIgnoreCase(s[i - 1]);
        ClassesIgnoreCase(Lower(s[i - 1]));
        assert IsSpace(t[i - 1]) == IsSpace(s[i - 1]);
      }
      assert WordStart(t, i) == WordStart(s, i);
    }
  }

  /** The example of the doc comment: 'this test sentence' -> 'This Test Sentence'. */
  lemma TitleCaseExample()
    ensures TitleCase("this test sentence") == "This Test Sentence"
  {
    TitleCaseFromWordStarts("this test sentence", "This Test Sentence");
  }

  /** A string is the title case of `s` when it agrees with `TitleCaseAt` everywhere. */
  lemma TitleCaseFromWordStarts(s: string, expected: string)
    requires |expected| == |s|
    requires forall i :: 0 <= i < |s| ==>
      expected[i] == if WordStart(s, i) then Upper(Lower(s[i])) else Lower(s[i])
    ensures TitleCase(s) == expected
  {
    forall i | 0 <= i < |s| ensures TitleCase(s)[i] == expected[i] {
      TitleCaseAt(s, i);
    }
  }

  // -------------------------------------------------------- withOrdinalSuffix

  /** The suffix `withOrdinalSuffix` appends; `day % 10` is JavaScript's
      truncating remainder, so a negative day always gets "th". */
  function OrdinalSuffix(day: int): (suffix: string)
    ensures suffix in {"st", "nd", "rd", "th"}
  {
    if 11 <= day <= 13 then "th"
    else
      var last := Rem(day, 10);
      if last == 1 then "st" else if last == 2 then "nd" else if last == 3 then "rd" else "th"
  }

  /** `withOrdinalSuffix(day)`: the number followed by its English ordinal suffix. */
  function WithOrdinalSuffix(day: int): (s: string)
    ensures |s| >= 3
    ensures s[|s| - 2..] in {"st", "nd", "rd", "th"}
  {
    IntToString(day) + OrdinalSuffix(day)
  }

  /** Eleven to thirteen take "th"; any other non-negative day takes the suffix
      of its last digit; negative days take "th". */
  lemma OrdinalSuffixByLastDigit(day: int)
    ensures 11 <= day <= 13 ==> OrdinalSuffix(day) == "th"
    ensures day >= 0 && !(11 <= day <= 13) ==>
      OrdinalSuffix(day) == (if day % 10 == 1 then "st" else if day % 10 == 2 then "nd"
                             else if day % 10 == 3 then "rd" else "th")
    ensures day < 0 ==> OrdinalSuffix(day) == "th"
  {
  }

  /** The number is recovered from the label, so different days get different labels. */
  lemma WithOrdinalSuffixInjective(a: int, b: int)
    requires WithOrdinalSuffix(a) == WithOrdinalSuffix(b)
    ensures a == b
  {
    var sa, sb := WithOrdinalSuffix(a), WithOrdinalSuffix(b);
    assert sa[..|sa| - 2] == IntToString(a);
    assert sb[..|sb| - 2] == IntToString(b);
    IntToStringInjective(a, b);
  }

  /** The label is the digits followed by the suffix. */
  lemma OrdinalLabel(day: nat, digits: string, suffix: string)
    requires NatToString(day) == digits && OrdinalSuffix(day) == suffix
    ensures WithOrdinalSuffix(day) == digits + suffix
  {
  }

  /** The examples of the doc comment, and 111 -> "111st" (only 11..13 are special). */
  lemma OrdinalExamples()
    ensures WithOrdinalSuffix(2) == "2nd"
    ensures WithOrdinalSuffix(21) == "21st"
    ensures WithOrdinalSuffix(17) == "17th"
    ensures WithOrdinalSuffix(12) == "12th"
    ensures WithOrdinalSuffix(111) == "111st"
  {
    assert NatToString(1) == "1" && NatToString(2) == "2";
    OrdinalLabel(2, "2", "nd");
    assert NatToString(21) == "21";
    OrdinalLabel(21, "21", "st");
    assert NatToString(17) == "17";
    OrdinalLabel(17, "17", "th");
    assert NatToString(12) == "12";
    OrdinalLabel(12, "12", "th");
    assert NatToString(11) == "11";
    assert NatToString(111) == "111";
    OrdinalLabel(111, "111", "st");
  }

  // ------------------------------------------------------------ calculateMean

  /** `calculateMean(xs)`: the sum divided by the count; `NaN` for no numbers. */
  function CalculateMean(xs: seq<real>): (m: Num)
    ensures xs == [] <==> m == NaN
    ensures xs != [] ==> m.Fin? && m.r * (|xs| as real) == Sum(xs)
  {
    Div(Sum(xs), |xs| as real)
  }

  lemma {:induction false} SumBounds(xs: seq<real>, lo: real, hi: real)
    requires forall i :: 0 <= i < |xs| ==> lo <= xs[i] <= hi
    ensures lo * (|xs| as real) <= Sum(xs) <= hi * (|xs| as real)
  {
    if xs != [] {
      SumBounds(xs[..|xs| - 1], lo, hi);
    }
  }

  lemma NonNegativeFactor(x: real, n: real)
    requires n > 0.0 && x * n >= 0.0
    ensures x >= 0.0
  {
  }

  /** The mean of some numbers lies between any lower and any upper bound of them. */
  lemma MeanBetweenBounds(xs: seq<real>, lo: real, hi: real)
    requires xs != []
    requires forall i :: 0 <= i < |xs| ==> lo <= xs[i] <= hi
    ensures lo <= CalculateMean(xs).r <= hi
  {
    SumBounds(xs, lo, hi);
    var n := |xs| as real;
    var m := CalculateMean(xs).r;
    assert m * n == Sum(xs);
    assert (m - lo) * n == m * n - lo * n;
    assert (hi - m) * n == hi * n - m * n;
    NonNegativeFactor(m - lo, n);
    NonNegativeFactor(hi - m, n);
  }

  // ------------------------------------------------------------ toWeekdayName

  /** Same date, month and year in local time. */
  predicate SameCivilDate(a: int, b: int)
  {
    Date(a) == Date(b) && Month(a) == Month(b) && FullYear(a) == FullYear(b)
  }

  /** `toWeekdayName(date, abbreviated)` evaluated at instant `today`. */
  function ToWeekdayName(date: int, abbreviated: bool, today: int): (name: string)
    ensures name == "Today" || name == "Yesterday"
      || exists w :: 0 <= w < 7 && (if abbreviated then name == AbbrevDaysOfWeek[w] else name == DaysOfWeek[w])
  {
    if SameCivilDate(date, today) then "Today"
    else if SameCivilDate(date, AddDays(today, -1)) then "Yesterday"
    else if abbreviated then AbbrevDaysOfWeek[Weekday(date)]
    else DaysOfWeek[Weekday(date)]
  }

  /** "Today" exactly on today's day, "Yesterday" exactly on the day before,
      otherwise the weekday's name, cut to three letters when abbreviated. */
  lemma WeekdayNameRule(date: int, abbreviated: bool, today: int)
    ensures ToWeekdayName(date, abbreviated, today) == "Today" <==> DayNumber(date) == DayNumber(today)
    ensures ToWeekdayName(date, abbreviated, today) == "Yesterday" <==> DayNumber(date) == DayNumber(today) - 1
    ensures DayNumber(date) != DayNumber(today) && DayNumber(date) != DayNumber(today) - 1 ==>
      ToWeekdayName(date, abbreviated, today) ==
        (if abbreviated then DaysOfWeek[Weekday(date)][..3] else DaysOfWeek[Weekday(date)])
  {
    assert SameCivilDate(date, today) <==> DayNumber(date) == DayNumber(today) by {
      SameDateIffSameDay(date, today);
    }
    assert SameCivilDate(date, AddDays(today, -1)) <==> DayNumber(date) == DayNumber(today) - 1 by {
      SameDateIffSameDay(date, AddDays(today, -1));
      AddDaysDayNumber(today, -1);
    }
    WeekdayNamesAreNotRelative(Weekday(date));
    AbbreviationsArePrefixes();
  }

  lemma WeekdayNamesAreNotRelative(w: int)
    requires 0 <= w < 7
    ensures DaysOfWeek[w] != "Today" && DaysOfWeek[w] != "Yesterday"
  {
    if w == 3 {
      assert DaysOfWeek[w][0] == 'W';
    } else {
      assert |DaysOfWeek[w]| != 5 && |DaysOfWeek[w]| != 9;
    }
  }

  // ------------------------------------------------------ numHoursToTimeString

  /** `numHoursToTimeString(width)`: hours up to four days, days up to thirty,
      weeks beyond, with days and weeks rounded by `toFixed(0)`. */
  function NumHoursToTimeString(width: int): (text: string)
    ensures |text| >= 2
    ensures text[|text| - 1] == (if width <= 96 then 'h' else if width <= 720 then 'd' else 'k')
  {
    if width <= 96 then IntToString(width) + "h"
    else if width <= 30 * 24 then ToFixed(Fin(width as real / 24.0), 0) + "d"
    else ToFixed(Fin(width as real / 24.0 / 7.0), 0) + "wk"
  }

  /** The three units, each with the count it prints: the hours themselves up
      to 96, then the nearest whole number of days (4 to 30), then of weeks (4 or more). */
  lemma TimeStringUnits(width: int)
    ensures width <= 96 ==> NumHoursToTimeString(width) == IntToString(width) + "h"
    ensures 96 < width <= 720 ==>
      var d := Round(width as real / 24.0);
      4 <= d <= 30 && NumHoursToTimeString(width) == NatToString(d) + "d"
    ensures 720 < width ==>
      var w := Round(width as real / 168.0);
      4 <= w && NumHoursToTimeString(width) == NatToString(w) + "wk"
  {
    if 96 < width <= 720 {
      ToFixedZero(width as real / 24.0);
    } else if 720 < width {
      assert width as real / 24.0 / 7.0 == width as real / 168.0;
      ToFixedZero(width as real / 168.0);
    }
  }
}
