/**
 * `Math.min(...xs)` and `Math.max(...xs)` over a non-empty list of finite
 * numbers, as the charts use them to size their y axes.
 */
module Extrema {
  import opened ChartValues

  /** The least element: it occurs in the list and no element is below it. */
  function MinOf(s: seq<real>): (m: real)
    requires |s| > 0
    ensures m in s
    ensures forall i :: 0 <= i < |s| ==> m <= s[i]
  {
    if |s| == 1 then s[0]
    else
      var rest := MinOf(s[1..]);
      assert forall i :: 1 <= i < |s| ==> s[i] == s[1..][i - 1];
      if s[0] <= rest then s[0] else rest
  }

  /** The greatest element: it occurs in the list and no element is above it. */
  function MaxOf(s: seq<real>): (m: real)
    requires |s| > 0
    ensures m in s
    ensures forall i :: 0 <= i < |s| ==> s[i] <= m
  {
    if |s| == 1 then s[0]
    else
      var rest := MaxOf(s[1..]);
      assert forall i :: 1 <= i < |s| ==> s[i] == s[1..][i - 1];
      if rest <= s[0] then s[0] else rest
  }

  /**
   * The extrema of a concatenation (`[...a, ...b]`) bound both parts, and
   * each extremum is an element of one of the parts.
   */
  lemma ConcatBounds(a: seq<real>, b: seq<real>)
    requires |a + b| > 0
    ensures forall i :: 0 <= i < |a| ==> MinOf(a + b) <= a[i] <= MaxOf(a + b)
    ensures forall j :: 0 <= j < |b| ==> MinOf(a + b) <= b[j] <= MaxOf(a + b)
    ensures (MinOf(a + b) in a || MinOf(a + b) in b) && (MaxOf(a + b) in a || MaxOf(a + b) in b)
  {
    var c := a + b;
    assert forall i :: 0 <= i < |a| ==> a[i] == c[i];
    assert forall j :: 0 <= j < |b| ==> b[j] == c[|a| + j];
    assert forall x :: x in c ==> x in a || x in b;
  }

  /** `suggestedMin` and `suggestedMax` of a y axis. */
  datatype AxisRange = AxisRange(suggestedMin: real, suggestedMax: real)

  /**
   * `min - margin` to `max + margin`: every value lies at least `margin`
   * inside the range, and the lowest and the highest exactly `margin` inside.
   */
  function PaddedAxis(s: seq<real>, margin: real): (a: AxisRange)
    requires |s| > 0
    ensures forall v :: v in s ==> a.suggestedMin + margin <= v <= a.suggestedMax - margin
    ensures a.suggestedMin + margin in s && a.suggestedMax - margin in s
  {
    AxisRange(MinOf(s) - margin, MaxOf(s) + margin)
  }

  /**
   * `max(0, min - margin)` to `max + margin`: the lower end is never
   * negative and is `max(0, v - margin)` for the lowest value v; the upper
   * end is exactly `margin` above the highest value.
   */
  function FlooredAxis(s: seq<real>, margin: real): (a: AxisRange)
    requires |s| > 0
    ensures a.suggestedMin >= 0.0
    ensures forall v :: v in s ==> a.suggestedMin <= Max(0.0, v - margin)
    ensures exists v :: v in s && a.suggestedMin == Max(0.0, v - margin)
    ensures forall v :: v in s ==> v + margin <= a.suggestedMax
    ensures a.suggestedMax - margin in s
  {
    AxisRange(Max(0.0, MinOf(s) - margin), MaxOf(s) + margin)
  }
}
