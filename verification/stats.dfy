/** Descriptive statistics over exact reals: sum, mean, sample variance and
    the standard score, as the volume column uses them. Products are kept
    behind `Product` so that each arithmetic fact is proved once, in a small
    lemma, and reused by name. */
module Stats {

  function Product(a: real, b: real): real { a * b }

  function Square(x: real): real { Product(x, x) }

  lemma ProductPositive(a: real, b: real)
    requires a > 0.0 && b > 0.0
    ensures Product(a, b) > 0.0
  {
  }

  lemma SquarePositive(x: real)
    ensures Square(x) >= 0.0
    ensures x != 0.0 ==> Square(x) > 0.0
  {
    if x > 0.0 {
      ProductPositive(x, x);
    } else if x < 0.0 {
      ProductPositive(-x, -x);
      assert Product(-x, -x) == Product(x, x);
    }
  }

  function Sum(xs: seq<real>): real {
    if |xs| == 0 then 0.0 else Sum(xs[..|xs| - 1]) + xs[|xs| - 1]
  }

  function SumSquares(xs: seq<real>): (r: real)
    ensures r >= 0.0
  {
    if |xs| == 0 then 0.0
    else
      SquarePositive(xs[|xs| - 1]);
      SumSquares(xs[..|xs| - 1]) + Square(xs[|xs| - 1])
  }

  /** The sum of squared deviations from `m`. */
  function SquaredDeviation(xs: seq<real>, m: real): (r: real)
    ensures r >= 0.0
  {
    if |xs| == 0 then 0.0
    else
      SquarePositive(xs[|xs| - 1] - m);
      SquaredDeviation(xs[..|xs| - 1], m) + Square(xs[|xs| - 1] - m)
  }

  predicate AllEqual(xs: seq<real>) {
    forall i, j :: 0 <= i < |xs| && 0 <= j < |xs| ==> xs[i] == xs[j]
  }

  function Mean(xs: seq<real>): real
    requires |xs| > 0
  {
    Sum(xs) / |xs| as real
  }

  lemma QuotientSign(a: real, n: real)
    requires n > 0.0
    ensures a >= 0.0 ==> a / n >= 0.0
    ensures a / n == 0.0 <==> a == 0.0
    ensures Product(a / n, n) == a
  {
  }

  /** The sample variance: one degree of freedom removed, as pandas' `std`. */
  function Variance(xs: seq<real>): (v: real)
    requires |xs| > 1
    ensures v >= 0.0
  {
    QuotientSign(SquaredDeviation(xs, Mean(xs)), (|xs| - 1) as real);
    SquaredDeviation(xs, Mean(xs)) / (|xs| - 1) as real
  }

  lemma {:induction false} SumConstant(xs: seq<real>, c: real)
    requires forall i :: 0 <= i < |xs| ==> xs[i] == c
    ensures Sum(xs) == |xs| as real * c
    decreases |xs|
  {
    if |xs| > 0 {
      SumConstant(xs[..|xs| - 1], c);
    }
  }

  lemma {:induction false} SquaredDeviationZero(xs: seq<real>, m: real)
    ensures SquaredDeviation(xs, m) == 0.0 <==> forall i :: 0 <= i < |xs| ==> xs[i] == m
    decreases |xs|
  {
    if |xs| > 0 {
      SquaredDeviationZero(xs[..|xs| - 1], m);
      SquarePositive(xs[|xs| - 1] - m);
    }
  }

  lemma MeanOfConstant(xs: seq<real>)
    requires |xs| > 0 && AllEqual(xs)
    ensures Mean(xs) == xs[0]
  {
    SumConstant(xs, xs[0]);
    QuotientSign(Sum(xs), |xs| as real);
    CancelFactor(|xs| as real, xs[0]);
  }

  lemma CancelFactor(n: real, c: real)
    requires n > 0.0
    ensures n * c / n == c
  {
  }

  /** The sample variance is zero exactly when all values are equal. */
  lemma VarianceZeroIffAllEqual(xs: seq<real>)
    requires |xs| > 1
    ensures Variance(xs) == 0.0 <==> AllEqual(xs)
  {
    var m := Mean(xs);
    SquaredDeviationZero(xs, m);
    QuotientSign(SquaredDeviation(xs, m), (|xs| - 1) as real);
    if AllEqual(xs) {
      MeanOfConstant(xs);
    } else {
      var i, j :| 0 <= i < |xs| && 0 <= j < |xs| && xs[i] != xs[j];
      assert xs[i] != m || xs[j] != m;
    }
  }

  /** `(x - m) / sd` for every value of `xs`: the standard score. */
  function Scaled(xs: seq<real>, m: real, sd: real): (ys: seq<real>)
    requires sd != 0.0
    ensures |ys| == |xs|
  {
    if |xs| == 0 then [] else Scaled(xs[..|xs| - 1], m, sd) + [(xs[|xs| - 1] - m) / sd]
  }

  lemma SumStep(a: real, s: real, n: real, m: real, sd: real, x: real)
    requires sd != 0.0 && Product(a, sd) == s - Product(n, m)
    ensures Product(a + (x - m) / sd, sd) == (s + x) - Product(n + 1.0, m)
  {
  }

  lemma SquareStep(a: real, q: real, m: real, sd: real, x: real)
    requires sd != 0.0 && Product(a, Square(sd)) == q
    ensures Product(a + Square((x - m) / sd), Square(sd)) == q + Square(x - m)
  {
  }

  lemma {:induction false} ScaledSums(xs: seq<real>, m: real, sd: real)
    requires sd != 0.0
    ensures Product(Sum(Scaled(xs, m, sd)), sd) == Sum(xs) - Product(|xs| as real, m)
    ensures Product(SumSquares(Scaled(xs, m, sd)), Square(sd)) == SquaredDeviation(xs, m)
    decreases |xs|
  {
    if |xs| > 0 {
      var front, x := xs[..|xs| - 1], xs[|xs| - 1];
      ScaledSums(front, m, sd);
      var ys := Scaled(xs, m, sd);
      assert ys[..|ys| - 1] == Scaled(front, m, sd) && ys[|ys| - 1] == (x - m) / sd;
      SumStep(Sum(Scaled(front, m, sd)), Sum(front), |front| as real, m, sd, x);
      SquareStep(SumSquares(Scaled(front, m, sd)), SquaredDeviation(front, m), m, sd, x);
    }
  }

  lemma ZeroFactor(t: real, sd: real)
    requires sd != 0.0 && Product(t, sd) == 0.0
    ensures t == 0.0
  {
  }

  lemma MeanTimesCount(xs: seq<real>)
    requires |xs| > 0
    ensures Product(|xs| as real, Mean(xs)) == Sum(xs)
  {
    QuotientSign(Sum(xs), |xs| as real);
  }

  /** Standard scores around the values' own mean sum to zero. */
  lemma {:induction false} ScaledAroundMeanSumsToZero(xs: seq<real>, sd: real)
    requires |xs| > 0 && sd != 0.0
    ensures Sum(Scaled(xs, Mean(xs), sd)) == 0.0
  {
    ScaledSums(xs, Mean(xs), sd);
    MeanTimesCount(xs);
    ZeroFactor(Sum(Scaled(xs, Mean(xs), sd)), sd);
  }

  lemma VarianceTimesDegrees(xs: seq<real>)
    requires |xs| > 1
    ensures Product(Variance(xs), (|xs| - 1) as real) == SquaredDeviation(xs, Mean(xs))
  {
    var ss, n := SquaredDeviation(xs, Mean(xs)), (|xs| - 1) as real;
    assert Variance(xs) == ss / n;
    QuotientSign(ss, n);
  }

  lemma CancelCommon(q: real, v: real, n: real)
    requires v != 0.0 && Product(q, v) == Product(n, v)
    ensures q == n
  {
    ZeroFactor(q - n, v);
  }

  /** Scaled by an exact square root of the sample variance, the standard
      scores have sample variance 1: their squares sum to n - 1. */
  lemma {:induction false} ScaledUnitVariance(xs: seq<real>, sd: real)
    requires |xs| > 1 && sd != 0.0 && Square(sd) == Variance(xs)
    ensures SumSquares(Scaled(xs, Mean(xs), sd)) == (|xs| - 1) as real
  {
    ScaledSums(xs, Mean(xs), sd);
    VarianceTimesDegrees(xs);
    SquarePositive(sd);
    CancelCommon(SumSquares(Scaled(xs, Mean(xs), sd)), Variance(xs), (|xs| - 1) as real);
  }

  /** 1, 2 and 3 have mean 2 and sample variance 1. */
  lemma ThreeValues()
    ensures Mean([1.0, 2.0, 3.0]) == 2.0 && Variance([1.0, 2.0, 3.0]) == 1.0
  {
    var xs: seq<real> := [1.0, 2.0, 3.0];
    assert xs[..2][..1] == [1.0] && xs[..2][..1][..0] == [] && xs[..2] == [1.0, 2.0];
    assert Sum([1.0]) == 1.0 && Sum([1.0, 2.0]) == 3.0 && Sum(xs) == 6.0;
    assert Mean(xs) == 2.0;
    assert Square(-1.0) == 1.0 && Square(0.0) == 0.0 && Square(1.0) == 1.0;
    assert SquaredDeviation([1.0], 2.0) == 1.0;
    assert SquaredDeviation([1.0, 2.0], 2.0) == 1.0;
    assert SquaredDeviation(xs, 2.0) == 2.0;
  }
}
