/**
 * Performance metrics over real-valued daily returns: compounded cumulative
 * returns, the total as the last cumulative value, the annualised sample
 * volatility and the Sharpe ratio guarded by a positive volatility. Square
 * roots are an uninterpreted parameter.
 */
module Metrics {
  import opened Wrappers

  /** Trading days per year used to annualise. */
  const TradingDays: real := 252.0

  /** The growth factor of compounding the returns: the product of (1 + r). */
  function Growth(rs: seq<real>): real
  {
    if |rs| == 0 then 1.0 else Growth(rs[..|rs| - 1]) * (1.0 + rs[|rs| - 1])
  }

  /** The running compounded returns: entry i is the growth over the first i + 1 returns, minus one. */
  function Cumulative(rs: seq<real>): (cs: seq<real>)
    ensures |cs| == |rs|
    ensures forall i :: 0 <= i < |rs| ==> cs[i] == Growth(rs[..i + 1]) - 1.0
  {
    seq(|rs|, i requires 0 <= i < |rs| => Growth(rs[..i + 1]) - 1.0)
  }

  /** The last cumulative value, or 0 for an empty series. */
  function Total(cs: seq<real>): real
  {
    if |cs| > 0 then cs[|cs| - 1] else 0.0
  }

  /** The total of the cumulative series is the whole growth minus one, also when empty. */
  lemma TotalIsGrowth(rs: seq<real>)
    ensures Total(Cumulative(rs)) == Growth(rs) - 1.0
  {
    if |rs| > 0 {
      assert rs[..|rs|] == rs;
    }
  }

  /** Compounding splits over concatenation. */
  lemma {:induction false} GrowthAppend(a: seq<real>, b: seq<real>)
    ensures Growth(a + b) == Growth(a) * Growth(b)
    decreases |b|
  {
    if |b| == 0 {
      assert a + b == a;
    } else {
      var b' := b[..|b| - 1];
      assert (a + b)[..|a + b| - 1] == a + b';
      GrowthAppend(a, b');
      var x := 1.0 + b[|b| - 1];
      assert Growth(a + b) == Growth(a) * Growth(b') * x;
    }
  }

  /**
   * The running series obeys the compounding recurrence: one more return r
   * appends (1 + previous total)(1 + r) - 1.
   */
  lemma CumulativeStep(rs: seq<real>, r: real)
    ensures Cumulative(rs + [r]) == Cumulative(rs) + [(1.0 + Total(Cumulative(rs))) * (1.0 + r) - 1.0]
  {
    var xs := rs + [r];
    var lhs, rhs := Cumulative(xs), Cumulative(rs) + [(1.0 + Total(Cumulative(rs))) * (1.0 + r) - 1.0];
    forall i | 0 <= i < |rs| ensures lhs[i] == rhs[i] {
      assert xs[..i + 1] == rs[..i + 1];
    }
    CumulativeLast(rs, r);
  }

  /** The entry appended for one more return. */
  lemma CumulativeLast(rs: seq<real>, r: real)
    ensures Cumulative(rs + [r])[|rs|] == (1.0 + Total(Cumulative(rs))) * (1.0 + r) - 1.0
  {
    var xs := rs + [r];
    TotalIsGrowth(rs);
    assert xs[..|rs| + 1] == xs && xs[..|xs| - 1] == rs;
    assert Growth(xs) == Growth(rs) * (1.0 + r);
  }

  /** A series of zero returns has zero cumulative returns throughout. */
  lemma {:induction false} ZeroGrowth(rs: seq<real>)
    requires forall i :: 0 <= i < |rs| ==> rs[i] == 0.0
    ensures Growth(rs) == 1.0
  {
    if |rs| > 0 {
      ZeroGrowth(rs[..|rs| - 1]);
    }
  }

  lemma ZeroCumulative(rs: seq<real>)
    requires forall i :: 0 <= i < |rs| ==> rs[i] == 0.0
    ensures forall i :: 0 <= i < |rs| ==> Cumulative(rs)[i] == 0.0
  {
    forall i | 0 <= i < |rs| ensures Cumulative(rs)[i] == 0.0 {
      ZeroGrowth(rs[..i + 1]);
    }
  }

  function Sum(xs: seq<real>): real
  {
    if |xs| == 0 then 0.0 else Sum(xs[..|xs| - 1]) + xs[|xs| - 1]
  }

  function Mean(xs: seq<real>): real
    requires |xs| > 0
  {
    Sum(xs) / |xs| as real
  }

  function Square(x: real): (y: real)
    ensures y >= 0.0
  {
    if x >= 0.0 then x * x else (-x) * (-x)
  }

  /** The sum of squared deviations from m. */
  function SquaredDeviations(xs: seq<real>, m: real): (s: real)
    ensures s >= 0.0
  {
    if |xs| == 0 then 0.0
    else SquaredDeviations(xs[..|xs| - 1], m) + Square(xs[|xs| - 1] - m)
  }

  /** The sample variance (divisor n - 1). */
  function SampleVariance(xs: seq<real>): (v: real)
    requires |xs| >= 2
    ensures v >= 0.0
  {
    SquaredDeviations(xs, Mean(xs)) / (|xs| - 1) as real
  }

  lemma {:induction false} SumOfConstant(xs: seq<real>, c: real)
    requires forall i :: 0 <= i < |xs| ==> xs[i] == c
    ensures Sum(xs) == c * |xs| as real
  {
    if |xs| > 0 {
      SumOfConstant(xs[..|xs| - 1], c);
    }
  }

  lemma {:induction false} DeviationsOfConstant(xs: seq<real>, c: real)
    requires forall i :: 0 <= i < |xs| ==> xs[i] == c
    ensures SquaredDeviations(xs, c) == 0.0
  {
    if |xs| > 0 {
      DeviationsOfConstant(xs[..|xs| - 1], c);
    }
  }

  /** A constant series has mean equal to the constant and zero sample variance. */
  lemma ConstantVariance(xs: seq<real>, c: real)
    requires |xs| >= 2 && forall i :: 0 <= i < |xs| ==> xs[i] == c
    ensures Mean(xs) == c && SampleVariance(xs) == 0.0
  {
    SumOfConstant(xs, c);
    var n := |xs| as real;
    assert Sum(xs) / n == c * n / n == c;
    DeviationsOfConstant(xs, c);
  }

  /**
   * The annualised volatility `std() * sqrt(252)`; None stands for the NaN
   * pandas gives with fewer than two values.
   */
  function Volatility(xs: seq<real>, sqrt: real -> real): (v: Option<real>)
    ensures v.None? <==> |xs| < 2
  {
    if |xs| < 2 then None else Some(sqrt(SampleVariance(xs)) * sqrt(TradingDays))
  }

  /** Whether the volatility is a positive number (a NaN compares false). */
  predicate PositiveVol(v: Option<real>)
  {
    v.Some? && v.value > 0.0
  }

  /** `mean * 252 / vol` when the volatility is positive, else 0. */
  function Sharpe(xs: seq<real>, sqrt: real -> real): (s: real)
    ensures s != 0.0 ==> PositiveVol(Volatility(xs, sqrt)) && |xs| >= 2
  {
    var v := Volatility(xs, sqrt);
    if PositiveVol(v) then Mean(xs) * TradingDays / v.value else 0.0
  }

  /** With a positive volatility the ratio is the annualised mean over the volatility. */
  lemma SharpeDefinedByVol(xs: seq<real>, sqrt: real -> real)
    requires PositiveVol(Volatility(xs, sqrt))
    ensures |xs| >= 2 && Sharpe(xs, sqrt) * Volatility(xs, sqrt).value == Mean(xs) * TradingDays
  {
  }

  /** A constant series has no volatility whenever sqrt(0) = 0, so its Sharpe ratio is 0. */
  lemma SharpeOfConstant(xs: seq<real>, c: real, sqrt: real -> real)
    requires |xs| >= 2 && forall i :: 0 <= i < |xs| ==> xs[i] == c
    requires sqrt(0.0) == 0.0
    ensures Volatility(xs, sqrt) == Some(0.0) && Sharpe(xs, sqrt) == 0.0
  {
    ConstantVariance(xs, c);
  }
}
