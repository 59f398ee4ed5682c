/** Exact real-arithmetic counterparts of the few numpy and Python numeric
    routines the beam code relies on. IEEE rounding is not modelled: reals
    here are exact rationals. */
module Numeric {

  datatype Option<T> = None | Some(value: T)

  /** numpy.linspace(lo, hi, num) with its default endpoint=True: `num`
      evenly spaced samples, the first `lo` and (for num >= 2) the last `hi`. */
  function Linspace(lo: real, hi: real, num: nat): (r: seq<real>)
    ensures |r| == num
    ensures num >= 1 ==> r[0] == lo
    ensures num >= 2 ==> r[num - 1] == hi
    ensures num >= 2 ==> forall k :: 0 <= k < num ==> r[k] == lo + k as real * ((hi - lo) / (num - 1) as real)
  {
    if num <= 1 then seq(num, k => lo)
    else
      var step := (hi - lo) / (num - 1) as real;
      var r := seq(num, k => lo + k as real * step);
      LastSample(lo, hi, (num - 1) as real, step);
      r
  }

  /** lo + m step == hi when step == (hi - lo) / m and m > 0. */
  lemma LastSample(lo: real, hi: real, m: real, step: real)
    requires m > 0.0 && step == (hi - lo) / m
    ensures lo + m * step == hi
  {
    assert m * step == hi - lo;
  }

  /** numpy.max over a non-empty list of reals. */
  function MaxOf(s: seq<real>): (m: real)
    requires |s| > 0
    ensures m in s
    ensures forall k :: 0 <= k < |s| ==> s[k] <= m
  {
    if |s| == 1 then s[0]
    else
      var rest := MaxOf(s[..|s| - 1]);
      if s[|s| - 1] > rest then s[|s| - 1] else rest
  }

  /** Python's int() of a float, as numpy's astype(int) does it: truncation
      toward zero, so every value strictly between -1 and 1 becomes 0. */
  function TruncateToInt(v: real): (t: int)
    ensures 0.0 <= v ==> t as real <= v < t as real + 1.0
    ensures v < 0.0 ==> t as real - 1.0 < v <= t as real
  {
    if v >= 0.0 then v.Floor else -((-v).Floor)
  }

  /** Truncation lands in [0, n) exactly when the real lies strictly
      between -1 and n (for n >= 1). */
  lemma TruncateInRange(v: real, n: nat)
    requires n >= 1
    ensures 0 <= TruncateToInt(v) < n <==> -1.0 < v < n as real
  {
    var t := TruncateToInt(v);
    if v < 0.0 {
      if -1.0 < v {
        assert t as real - 1.0 < v < 0.0 && v <= t as real;
        assert t == 0;
      }
    }
  }

  /** Truncation stays at or above -n exactly when the real lies strictly
      above -(n + 1). */
  lemma TruncateAboveNegated(v: real, n: nat)
    ensures -(n as int) <= TruncateToInt(v) <==> -(n as real) - 1.0 < v
  {
  }
}
