/** The parts of JavaScript's number and array semantics the dashboard relies on.
    Finite numbers are modelled exactly as reals (IEEE rounding is not modelled);
    `Infinity`, `-Infinity` and `NaN` are kept where the code can produce them. */
module Js {
  import opened Text

  datatype Option<+T> = None | Some(value: T)

  /** A JavaScript number. */
  datatype Num = Fin(r: real) | PosInf | NegInf | NaN

  /** `a / b`: dividing by zero gives an infinity of the numerator's sign, or NaN for `0 / 0`. */
  function Div(a: real, b: real): (q: Num)
    ensures b != 0.0 ==> q == Fin(a / b)
    ensures b == 0.0 ==> !q.Fin? && (q == NaN <==> a == 0.0)
  {
    if b != 0.0 then Fin(a / b)
    else if a > 0.0 then PosInf
    else if a < 0.0 then NegInf
    else NaN
  }

  /** `x * k` for a finite `k > 0`. */
  function Scale(x: Num, k: real): (y: Num)
    requires k > 0.0
    ensures x.Fin? <==> y.Fin?
    ensures x.Fin? ==> y.r == x.r * k
    ensures !x.Fin? ==> y == x
  {
    match x
    case Fin(r) => Fin(r * k)
    case _ => x
  }

  /** `Math.round(x)`: the nearest integer, halves rounded up. */
  function Round(x: real): (n: int)
    ensures n as real - 0.5 <= x < n as real + 0.5
  {
    (x + 0.5).Floor
  }

  /** `Math.ceil(x)`: the least integer not below `x`. */
  function Ceil(x: real): (n: int)
    ensures n as real - 1.0 < x <= n as real
  {
    -((-x).Floor)
  }

  /** `a % m` on integers for a positive `m`: the remainder of division truncated
      toward zero, so it has the sign of `a` (unlike Dafny's `%`). */
  function Rem(a: int, m: int): (r: int)
    requires m > 0
    ensures a >= 0 ==> 0 <= r < m
    ensures a < 0 ==> -m < r <= 0
    ensures a >= 0 ==> r == a % m
    ensures a < 0 ==> r == -((-a) % m)
  {
    if a >= 0 then a % m else -((-a) % m)
  }

  function Pow10(d: nat): (p: nat)
    ensures p >= 1
  {
    if d == 0 then 1 else 10 * Pow10(d - 1)
  }

  /** The digits of `n` with a decimal point `d` places from the right,
      zero-padded so that at least one digit precedes the point. */
  function PointString(n: nat, d: nat): string
  {
    var digits := NatToString(n);
    var padded := if |digits| <= d then seq(d + 1 - |digits|, _ => '0') + digits else digits;
    if d == 0 then padded
    else padded[..|padded| - d] + "." + padded[|padded| - d..]
  }

  /** The integer that `x.toFixed(d)` prints, scaled by `10^d`: `|x|·10^d`
      rounded to the nearest integer, halves away from zero. */
  function FixedMagnitude(r: real, d: nat): (n: nat)
    ensures var a := (if r < 0.0 then -r else r) * Pow10(d) as real;
            n as real - 0.5 <= a < n as real + 0.5
  {
    Round((if r < 0.0 then -r else r) * Pow10(d) as real)
  }

  /** `x.toFixed(d)` for `|x| < 10^21`. */
  function ToFixed(x: Num, d: nat): string
  {
    match x
    case PosInf => "Infinity"
    case NegInf => "-Infinity"
    case NaN => "NaN"
    case Fin(r) => (if r < 0.0 then "-" else "") + PointString(FixedMagnitude(r, d), d)
  }

  /** For a non-negative number, `toFixed(0)` prints the nearest integer, halves rounded up,
      which is what `Math.round` gives. */
  lemma ToFixedZero(x: real)
    requires x >= 0.0
    ensures ToFixed(Fin(x), 0) == NatToString(Round(x))
  {
    assert Pow10(0) == 1;
  }

  /** The sum `xs.reduce((acc, c) => acc + c, 0)`. */
  function Sum(xs: seq<real>): real
  {
    if xs == [] then 0.0 else Sum(xs[..|xs| - 1]) + xs[|xs| - 1]
  }

  lemma {:induction false} SumAppend(xs: seq<real>, ys: seq<real>)
    ensures Sum(xs + ys) == Sum(xs) + Sum(ys)
  {
    if ys != [] {
      assert (xs + ys)[..|xs + ys| - 1] == xs + ys[..|ys| - 1];
      SumAppend(xs, ys[..|ys| - 1]);
    } else {
      assert xs + ys == xs;
    }
  }

  /** The index that `Array.prototype.slice` makes of a start or end argument:
      negative values count from the end, and the result is clamped to `[0, len]`. */
  function RelativeIndex(i: int, len: nat): (k: nat)
    ensures k <= len
    ensures 0 <= i <= len ==> k == i
    ensures i > len ==> k == len
    ensures i < 0 && len + i >= 0 ==> k == len + i
    ensures len + i < 0 ==> k == 0
  {
    if i < 0 then (if len + i < 0 then 0 else len + i)
    else if i > len then len
    else i
  }

  /** `s.slice(start, end)`; `end == None` stands for an omitted or `undefined` end. */
  function Slice<T>(s: seq<T>, start: int, end: Option<int>): (r: seq<T>)
    ensures var from := RelativeIndex(start, |s|);
            var to := if end.None? then |s| else RelativeIndex(end.value, |s|);
            |r| == (if from <= to then to - from else 0)
            && forall i :: 0 <= i < |r| ==> r[i] == s[from + i]
  {
    var from := RelativeIndex(start, |s|);
    var to := if end.None? then |s| else RelativeIndex(end.value, |s|);
    if from <= to then s[from..to] else []
  }

  /** With non-negative in-range bounds, `slice` is Dafny's subsequence. */
  lemma SliceInRange<T>(s: seq<T>, start: int, end: int)
    requires 0 <= start <= end <= |s|
    ensures Slice(s, start, Some(end)) == s[start..end]
  {
  }

  /** `s.slice(|s| - k)`: the last `k` items when there are at least `k`; otherwise the
      start is negative and counts from the end once more, leaving only the last
      `2·|s| − k` items (none at all when `2·|s| <= k`). */
  lemma SliceFromLengthMinus<T>(s: seq<T>, k: nat, end: Option<int>)
    requires end.None? || end.value == |s|
    ensures k <= |s| ==> Slice(s, |s| - k, end) == s[|s| - k..]
    ensures |s| < k ==> Slice(s, |s| - k, end) == s[if 2 * |s| >= k then 2 * |s| - k else 0..]
  {
  }
}
