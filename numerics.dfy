/** Java numeric conventions the risk engine relies on, stated over exact reals:
    the narrowing `(int)` cast, floating division whose divisor may be zero,
    and the sums and averages the engine's loops and streams compute. */
module Numerics {

  /** Result of a floating division `part / whole * 100`. Java does not fail on a
      zero divisor; it yields Infinity or NaN, both represented by `NonFinite`. */
  datatype Quotient = Finite(value: real) | NonFinite

  /** `part / whole * 100`, the percentage the result records derive. */
  function Percentage(part: real, whole: real): (q: Quotient)
    ensures q.Finite? <==> whole != 0.0
    ensures q.Finite? ==> q.value * whole == part * 100.0
  {
    if whole == 0.0 then NonFinite else Finite(part / whole * 100.0)
  }

  /** Java's `(int)` narrowing of a double: rounds toward zero. */
  function TruncateToInt(x: real): (r: int)
    ensures 0.0 <= x ==> 0 <= r && r as real <= x < r as real + 1.0
    ensures x < 0.0 ==> r <= 0 && r as real - 1.0 < x <= r as real
  {
    if x >= 0.0 then x.Floor else -((-x).Floor)
  }

  /** Truncation toward zero never reverses the order of its arguments. */
  lemma TruncateMonotone(x: real, y: real)
    requires x <= y
    ensures TruncateToInt(x) <= TruncateToInt(y)
  {
    if 0.0 <= x {
      assert x.Floor <= y.Floor;
    } else if y < 0.0 {
      assert (-y).Floor <= (-x).Floor;
    }
  }

  /** The truncation lies in [0, len) exactly when the value lies in (-1, len). */
  lemma TruncateInRange(x: real, len: nat)
    requires len >= 1
    ensures 0 <= TruncateToInt(x) < len <==> -1.0 < x < len as real
  {
    var k := TruncateToInt(x);
    if x >= 0.0 {
      assert k < len <==> x < len as real;
    } else {
      assert k == -((-x).Floor);
      assert (-x).Floor == 0 <==> -x < 1.0;
    }
  }

  function Abs(x: real): real
  {
    if x < 0.0 then -x else x
  }

  /** Left-to-right sum, as the source's accumulation loops compute it. */
  function Sum(s: seq<real>): real
  {
    if |s| == 0 then 0.0 else Sum(s[..|s| - 1]) + s[|s| - 1]
  }

  /** Average; an empty sequence averages to 0, as `average().orElse(0)` does. */
  function Mean(s: seq<real>): real
  {
    if |s| == 0 then 0.0 else Sum(s) / |s| as real
  }

  function SquaredDeviations(s: seq<real>, m: real): seq<real>
  {
    seq(|s|, i requires 0 <= i < |s| => (s[i] - m) * (s[i] - m))
  }

  /** Population variance: the mean squared deviation, dividing by n (not n - 1). */
  function PopulationVariance(s: seq<real>): real
  {
    Mean(SquaredDeviations(s, Mean(s)))
  }

  /** One more step of the accumulation loop adds exactly the next element. */
  lemma SumAppend(s: seq<real>, x: real)
    ensures Sum(s + [x]) == Sum(s) + x
  {
    assert (s + [x])[..|s|] == s;
  }

  /** Extending a prefix by one element adds that element to the sum. */
  lemma SumPrefixStep(s: seq<real>, i: nat)
    requires i < |s|
    ensures Sum(s[..i + 1]) == Sum(s[..i]) + s[i]
  {
    assert s[..i + 1][..i] == s[..i];
  }

  lemma {:induction false} SumConstant(s: seq<real>, c: real)
    requires forall i :: 0 <= i < |s| ==> s[i] == c
    ensures Sum(s) == |s| as real * c
  {
    if |s| > 0 {
      SumConstant(s[..|s| - 1], c);
    }
  }

  lemma {:induction false} SumBounds(s: seq<real>, lo: real, hi: real)
    requires forall i :: 0 <= i < |s| ==> lo <= s[i] <= hi
    ensures |s| as real * lo <= Sum(s) <= |s| as real * hi
  {
    if |s| > 0 {
      SumBounds(s[..|s| - 1], lo, hi);
    }
  }

  /** Multiplying by a positive factor keeps strict order, in both directions. */
  lemma ScaleStrict(a: real, b: real, n: real)
    requires n > 0.0
    ensures a < b <==> a * n < b * n
  {
    if a < b {
      assert (b - a) * n > 0.0;
    } else {
      assert (a - b) * n >= 0.0;
    }
  }

  /** The mean of values that all lie in [lo, hi] lies in [lo, hi]. */
  lemma MeanBounds(s: seq<real>, lo: real, hi: real)
    requires |s| > 0
    requires forall i :: 0 <= i < |s| ==> lo <= s[i] <= hi
    ensures lo <= Mean(s) <= hi
  {
    SumBounds(s, lo, hi);
    var n := |s| as real;
    var m := Sum(s) / n;
    assert m * n == Sum(s);
    ScaleStrict(m, lo, n);
    ScaleStrict(hi, m, n);
  }

  lemma {:induction false} SumNonNegative(s: seq<real>)
    requires forall i :: 0 <= i < |s| ==> 0.0 <= s[i]
    ensures 0.0 <= Sum(s)
  {
    if |s| > 0 {
      SumNonNegative(s[..|s| - 1]);
    }
  }

  /** The variance the engine takes a square root of is never negative. */
  lemma PopulationVarianceNonNegative(s: seq<real>)
    ensures PopulationVariance(s) >= 0.0
  {
    var d := SquaredDeviations(s, Mean(s));
    SquaredDeviationsNonNegative(s, Mean(s));
    MeanNonNegative(d);
  }

  lemma SquaredDeviationsNonNegative(s: seq<real>, m: real)
    ensures forall i :: 0 <= i < |s| ==> SquaredDeviations(s, m)[i] >= 0.0
  {
    forall i | 0 <= i < |s| ensures SquaredDeviations(s, m)[i] >= 0.0 {
      SquareNonNegative(s[i] - m);
    }
  }

  lemma MeanNonNegative(s: seq<real>)
    requires forall i :: 0 <= i < |s| ==> 0.0 <= s[i]
    ensures Mean(s) >= 0.0
  {
    SumNonNegative(s);
    if |s| > 0 {
      ScaleStrict(Sum(s) / |s| as real, 0.0, |s| as real);
    }
  }

  lemma SquareNonNegative(e: real)
    ensures e * e >= 0.0
  {
    if e < 0.0 {
      assert e * e == (-e) * (-e);
    }
  }

  /** A constant series has zero variance, so zero volatility. */
  lemma PopulationVarianceOfConstant(s: seq<real>, c: real)
    requires forall i :: 0 <= i < |s| ==> s[i] == c
    ensures PopulationVariance(s) == 0.0
  {
    if |s| > 0 {
      SumConstant(s, c);
      assert Mean(s) == c;
      var d := SquaredDeviations(s, c);
      SumConstant(d, 0.0);
    }
  }
}
