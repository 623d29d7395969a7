/**
 * Plot values and the numeric helpers shared by the charts.
 *
 * A JavaScript number that is plotted is either a finite number or a gap:
 * NaN, +-Infinity, `undefined` (an index past the end of a table) and any
 * non-number all fail `isFiniteNumber` and are drawn as a gap, so they are
 * one variant here. Finite numbers are exact reals.
 */
module ChartValues {

  /** A plotted point: a finite number, or the "missing" gap (NaN in the source). */
  datatype Value = Missing | Val(r: real)

  /**
   * `isFiniteNumber`: the point passes exactly when it carries a real number;
   * NaN, the infinities and `undefined` are all the one `Missing` point.
   */
  predicate IsFiniteNumber(v: Value): (b: bool)
    ensures b <==> exists x :: v == Val(x)
  {
    v.Val?
  }

  /** `s[i]` in JavaScript: an index outside the array reads `undefined`, a gap. */
  function At(s: seq<Value>, i: int): (r: Value)
    ensures 0 <= i < |s| ==> r == s[i]
    ensures !(0 <= i < |s|) ==> r == Missing
  {
    if 0 <= i < |s| then s[i] else Missing
  }

  /** A table of literal numbers, every one of them finite. */
  function AsValues(s: seq<real>): (r: seq<Value>)
    ensures |r| == |s|
    ensures forall i :: 0 <= i < |s| ==> r[i] == Val(s[i])
  {
    seq(|s|, i requires 0 <= i < |s| => Val(s[i]))
  }

  function Pow10(n: nat): (p: nat)
    ensures p >= 1
  {
    if n == 0 then 1 else 10 * Pow10(n - 1)
  }

  function Abs(x: real): real {
    if x < 0.0 then -x else x
  }

  function Max(a: real, b: real): real {
    if a < b then b else a
  }

  /**
   * `+x.toFixed(n)` on an exact value: the nearest multiple of 10^-n, halves
   * rounded away from zero (toFixed rounds the magnitude and keeps the sign).
   */
  function Round(x: real, n: nat): (r: real)
    ensures Abs(r - x) <= 0.5 / Scale(n)
  {
    RoundAtError(x, Scale(n));
    RoundAt(x, Scale(n))
  }

  /** 10^n as a real: one unit of the n-th decimal is `1 / Scale(n)`. */
  function Scale(n: nat): (p: real)
    ensures p >= 1.0
  {
    Pow10(n) as real
  }

  /** The nearest multiple of `1 / p`, halves rounded away from zero. */
  function RoundAt(x: real, p: real): real
    requires p >= 1.0
  {
    if x >= 0.0 then HalfUp(x * p) as real / p
    else -(HalfUp(-x * p) as real / p)
  }

  /** The integer nearest to `y`, halves rounded up. */
  function HalfUp(y: real): int {
    (y + 0.5).Floor
  }

  /** Rounding a point; a gap stays a gap. */
  function RoundValue(v: Value, n: nat): (r: Value)
    ensures r.Missing? <==> v.Missing?
  {
    match v
    case Missing => Missing
    case Val(x) => Val(Round(x, n))
  }

  /**
   * `a / b` followed by the finiteness test: a gap in either operand, or a
   * zero divisor (which gives +-Infinity or NaN in the source), is a gap.
   * A gap divisor that stands for +-Infinity would give +-0 in the source;
   * no divisor the charts compute is infinite, so that case never arises.
   */
  function Div(a: Value, b: Value): (r: Value)
    ensures r.Missing? <==> (a.Missing? || b.Missing? || b.r == 0.0)
    ensures r.Val? ==> r.r * b.r == a.r
  {
    if a.Val? && b.Val? && b.r != 0.0 then Val(a.r / b.r) else Missing
  }

  /** `HalfUp(y)` is within half a unit of `y`. */
  lemma HalfUpError(y: real)
    ensures y - 0.5 < HalfUp(y) as real <= y + 0.5
  {
  }
  /** An integer is its own nearest integer. */
  lemma HalfUpInt(k: int)
    ensures HalfUp(k as real) == k
  {
  }
  lemma DivMul(a: real, p: real)
    requires p != 0.0
    ensures (a / p) * p == a
  {
  }
  lemma NegDiv(a: real, p: real)
    requires p != 0.0
    ensures -(a / p) == (-a) / p
  {
  }
  lemma DivSign(a: real, p: real)
    requires p > 0.0
    ensures a >= 0.0 <==> a / p >= 0.0
  {
    assert (a / p) * p == a;
  }

  lemma DivBounds(k: real, y: real, p: real)
    requires p >= 1.0
    requires y - 0.5 < k <= y + 0.5
    ensures k / p - y / p <= 0.5 / p
    ensures y / p - k / p <= 0.5 / p
  {
    assert k / p - y / p == (k - y) / p;
    assert y / p - k / p == (y - k) / p;
  }
  /** Rounding at grain `1 / p` moves a non-negative value by at most half a grain. */
  lemma RoundAtErrorNonneg(x: real, p: real)
    requires p >= 1.0 && x >= 0.0
    ensures RoundAt(x, p) - x <= 0.5 / p && x - RoundAt(x, p) <= 0.5 / p
  {
    var y := x * p;
    HalfUpError(y);
    DivBounds(HalfUp(y) as real, y, p);
    DivMul(x, p);
  }

  lemma RoundAtNonneg(x: real, p: real)
    requires p >= 1.0 && x >= 0.0
    ensures RoundAt(x, p) == HalfUp(x * p) as real / p
  {
  }

  /** Rounding is symmetric about zero. */
  lemma RoundAtOdd(x: real, p: real)
    requires p >= 1.0 && x < 0.0
    ensures RoundAt(x, p) == -RoundAt(-x, p)
  {
  }

  /** Rounding at grain `1 / p` moves a value by at most half a grain. */
  lemma RoundAtError(x: real, p: real)
    requires p >= 1.0
    ensures Abs(RoundAt(x, p) - x) <= 0.5 / p
  {
    if x >= 0.0 {
      RoundAtErrorNonneg(x, p);
    } else {
      RoundAtOdd(x, p);
      RoundAtErrorNonneg(-x, p);
    }
  }

  /** A non-negative multiple of `1 / p` is left as it is. */
  lemma RoundAtExactNonneg(k: nat, p: real)
    requires p >= 1.0
    ensures RoundAt(k as real / p, p) == k as real / p
  {
    var x := k as real / p;
    DivMul(k as real, p);
    DivSign(k as real, p);
    HalfUpInt(k);
    assert HalfUp(x * p) == k;
    RoundAtNonneg(x, p);
  }

  /** A multiple of `1 / p` is left as it is. */
  lemma RoundAtExact(k: int, p: real)
    requires p >= 1.0
    ensures RoundAt(k as real / p, p) == k as real / p
  {
    if k >= 0 {
      RoundAtExactNonneg(k, p);
    } else {
      var x := k as real / p;
      DivSign(k as real, p);
      NegDiv(k as real, p);
      assert -x == (-k) as real / p;
      RoundAtOdd(x, p);
      RoundAtExactNonneg(-k, p);
    }
  }

  /** Rounding at the same grain twice is rounding once. */
  lemma RoundAtIdempotent(x: real, p: real)
    requires p >= 1.0
    ensures RoundAt(RoundAt(x, p), p) == RoundAt(x, p)
  {
    if x >= 0.0 {
      RoundAtExact(HalfUp(x * p), p);
    } else {
      NegDiv(HalfUp(-x * p) as real, p);
      RoundAtExact(-HalfUp(-x * p), p);
    }
  }

  /** A multiple of 10^-n is already rounded to n decimals. */
  lemma RoundExact(k: int, n: nat)
    ensures Round(k as real / Scale(n), n) == k as real / Scale(n)
  {
    RoundAtExact(k, Scale(n));
  }

  /** A non-negative value rounds to k / 10^n when k is the nearest integer to it at that grain. */
  lemma RoundTo(x: real, n: nat, k: int)
    requires x >= 0.0
    requires k as real - 0.5 <= x * Scale(n) < k as real + 0.5
    ensures Round(x, n) == k as real / Scale(n)
  {
    RoundAtNonneg(x, Scale(n));
    assert HalfUp(x * Scale(n)) == k;
  }

  /**
   * Rounding is symmetric about zero: `(-x).toFixed(n)` is `x.toFixed(n)`
   * with a minus sign, so with `RoundTo` it fixes the value of every x.
   */
  lemma RoundSymmetric(x: real, n: nat)
    ensures Round(-x, n) == -Round(x, n)
  {
    if x < 0.0 {
      RoundAtOdd(x, Scale(n));
    } else if x > 0.0 {
      RoundAtOdd(-x, Scale(n));
    }
  }

  /** Rounding twice to the same number of decimals is rounding once. */
  lemma RoundIdempotent(x: real, n: nat)
    ensures Round(Round(x, n), n) == Round(x, n)
  {
    RoundAtIdempotent(x, Scale(n));
  }

  /** Rounding a point twice is rounding it once. */
  lemma RoundValueIdempotent(v: Value, n: nat)
    ensures RoundValue(RoundValue(v, n), n) == RoundValue(v, n)
  {
    if v.Val? {
      RoundIdempotent(v.r, n);
    }
  }
}
