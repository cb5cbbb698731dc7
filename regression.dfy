/**
 * The least-squares slope that `scipy.stats.linregress` returns for integer samples
 * `(xs[i], ys[i])` (day offsets against sold quantities), computed exactly. The slope is the
 * covariance of x and y over the variance of x; both are kept as integers scaled by n², in their
 * pairwise form
 *   n * Σxy - Σx * Σy  ==  Σ_{i<j} (xs[i] - xs[j]) * (ys[i] - ys[j]),
 * which `CovariationIsRawSums` proves.
 */
module Regression {

  /** Σ_{i<k} s[i]. */
  function Sum(s: seq<int>, k: nat): int
    requires k <= |s|
  {
    if k == 0 then 0 else Sum(s, k - 1) + s[k - 1]
  }

  /** Σ_{i<k} us[i] * vs[i]. */
  function Dot(us: seq<int>, vs: seq<int>, k: nat): int
    requires k <= |us| == |vs|
  {
    if k == 0 then 0 else Dot(us, vs, k - 1) + us[k - 1] * vs[k - 1]
  }

  /** `s - m`, element-wise. */
  function Deviations(s: seq<int>, m: int): (d: seq<int>)
    ensures |d| == |s|
  {
    seq(|s|, i requires 0 <= i < |s| => s[i] - m)
  }

  /** Σ_{i<k} (xs[i] - xs[k]) * (ys[i] - ys[k]): the pairs that end at sample `k`. */
  function CrossDeviation(xs: seq<int>, ys: seq<int>, k: nat): int
    requires k < |xs| == |ys|
  {
    Dot(Deviations(xs, xs[k]), Deviations(ys, ys[k]), k)
  }

  /** Σ_{i<j<k} (xs[i] - xs[j]) * (ys[i] - ys[j]): n² times the covariance of the first k samples. */
  function Covariation(xs: seq<int>, ys: seq<int>, k: nat): int
    requires k <= |xs| == |ys|
  {
    if k == 0 then 0 else Covariation(xs, ys, k - 1) + CrossDeviation(xs, ys, k - 1)
  }

  /** n² times the variance of `xs`. */
  function Spread(xs: seq<int>): int
  {
    Covariation(xs, xs, |xs|)
  }

  /** Every value is the first one (`nunique() == 1`, or no value at all). */
  predicate AllEqual(xs: seq<int>)
  {
    forall i :: 0 <= i < |xs| ==> xs[i] == xs[0]
  }

  lemma {:induction false} SquaresNonNegative(us: seq<int>, k: nat)
    requires k <= |us|
    ensures Dot(us, us, k) >= 0
  {
    if k > 0 {
      SquaresNonNegative(us, k - 1);
    }
  }

  /** One non-zero term makes a sum of squares strictly positive. */
  lemma {:induction false} SquaresPositive(us: seq<int>, k: nat, j: nat)
    requires j < k <= |us| && us[j] != 0
    ensures Dot(us, us, k) > 0
  {
    if j == k - 1 {
      SquaresNonNegative(us, k - 1);
    } else {
      SquaresPositive(us, k - 1, j);
    }
  }

  lemma {:induction false} SpreadNonNegative(xs: seq<int>, k: nat)
    requires k <= |xs|
    ensures Covariation(xs, xs, k) >= 0
  {
    if k > 0 {
      SpreadNonNegative(xs, k - 1);
      SquaresNonNegative(Deviations(xs, xs[k - 1]), k - 1);
    }
  }

  /** The spread of a prefix never exceeds the spread of a longer prefix. */
  lemma {:induction false} SpreadGrows(xs: seq<int>, j: nat, k: nat)
    requires j <= k <= |xs|
    ensures Covariation(xs, xs, j) <= Covariation(xs, xs, k)
    decreases k
  {
    if k > j {
      SpreadGrows(xs, j, k - 1);
      SquaresNonNegative(Deviations(xs, xs[k - 1]), k - 1);
    }
  }

  /** Two distinct x values make the denominator of the slope strictly positive. */
  lemma SpreadPositive(xs: seq<int>)
    requires !AllEqual(xs)
    ensures Spread(xs) > 0
  {
    var i :| 0 <= i < |xs| && xs[i] != xs[0];
    SpreadNonNegative(xs, i);
    SpreadGrows(xs, i + 1, |xs|);
    SquaresPositive(Deviations(xs, xs[i]), i, 0);
  }

  /** The least-squares slope of `ys` against `xs`. */
  function Slope(xs: seq<int>, ys: seq<int>): (b: real)
    requires |xs| == |ys| && !AllEqual(xs)
    ensures b * (Spread(xs) as real) == Covariation(xs, ys, |xs|) as real
  {
    SpreadPositive(xs);
    (Covariation(xs, ys, |xs|) as real) / (Spread(xs) as real)
  }

  /** The points lie on the line `y = a + b * x`. */
  predicate OnLine(xs: seq<int>, ys: seq<int>, a: int, b: int)
    requires |xs| == |ys|
  {
    forall i :: 0 <= i < |xs| ==> ys[i] == a + b * xs[i]
  }

  lemma TermOfLine(u: int, v: int, b: int)
    requires v == b * u
    ensures u * v == b * (u * u)
  {
  }

  /** The linear step that closes the inductions below. */
  lemma Combine(b: int, whole: int, rest: int, term: int, wholeSq: int, restSq: int, termSq: int)
    requires whole == rest + term && wholeSq == restSq + termSq
    requires rest == b * restSq && term == b * termSq
    ensures whole == b * wholeSq
  {
  }

  /** Scaling the second factor of every term scales the sum. */
  lemma {:induction false} DotScales(us: seq<int>, vs: seq<int>, b: int, k: nat)
    requires k <= |us| == |vs| && forall i :: 0 <= i < |us| ==> vs[i] == b * us[i]
    ensures Dot(us, vs, k) == b * Dot(us, us, k)
  {
    if k > 0 {
      DotScales(us, vs, b, k - 1);
      TermOfLine(us[k - 1], vs[k - 1], b);
      Combine(b, Dot(us, vs, k), Dot(us, vs, k - 1), us[k - 1] * vs[k - 1],
        Dot(us, us, k), Dot(us, us, k - 1), us[k - 1] * us[k - 1]);
    }
  }

  /** On a line, every y-difference is `b` times the x-difference. */
  lemma CrossDeviationOfLine(xs: seq<int>, ys: seq<int>, a: int, b: int, k: nat)
    requires k < |xs| == |ys| && OnLine(xs, ys, a, b)
    ensures CrossDeviation(xs, ys, k) == b * CrossDeviation(xs, xs, k)
  {
    var dx, dy := Deviations(xs, xs[k]), Deviations(ys, ys[k]);
    forall i | 0 <= i < |xs| ensures dy[i] == b * dx[i] {
      assert ys[i] == a + b * xs[i] && ys[k] == a + b * xs[k];
    }
    DotScales(dx, dy, b, k);
  }

  lemma {:induction false} CovariationOfLine(xs: seq<int>, ys: seq<int>, a: int, b: int, k: nat)
    requires k <= |xs| == |ys| && OnLine(xs, ys, a, b)
    ensures Covariation(xs, ys, k) == b * Covariation(xs, xs, k)
  {
    if k > 0 {
      CovariationOfLine(xs, ys, a, b, k - 1);
      CrossDeviationOfLine(xs, ys, a, b, k - 1);
      Combine(b, Covariation(xs, ys, k), Covariation(xs, ys, k - 1), CrossDeviation(xs, ys, k - 1),
        Covariation(xs, xs, k), Covariation(xs, xs, k - 1), CrossDeviation(xs, xs, k - 1));
    }
  }

  lemma SlopeUnique(spread: real, cov: real, b1: real, b2: real)
    requires spread > 0.0 && b1 * spread == cov && b2 * spread == cov
    ensures b1 == b2
  {
    assert (b1 - b2) * spread == 0.0;
  }

  /** Points on a line `y = a + b * x` have slope exactly `b`. */
  lemma SlopeOfLine(xs: seq<int>, ys: seq<int>, a: int, b: int)
    requires |xs| == |ys| && !AllEqual(xs) && OnLine(xs, ys, a, b)
    ensures Slope(xs, ys) == b as real
  {
    CovariationOfLine(xs, ys, a, b, |xs|);
    SpreadPositive(xs);
    SlopeUnique(Spread(xs) as real, Covariation(xs, ys, |xs|) as real, Slope(xs, ys), b as real);
  }

  /** A constant series has slope 0. */
  lemma SlopeOfConstant(xs: seq<int>, ys: seq<int>, c: int)
    requires |xs| == |ys| && !AllEqual(xs)
    requires forall i :: 0 <= i < |ys| ==> ys[i] == c
    ensures Slope(xs, ys) == 0.0
  {
    assert OnLine(xs, ys, c, 0);
    SlopeOfLine(xs, ys, c, 0);
  }

  /** Σ_{i<k} (xs[i] - x) * (ys[i] - y) expanded into raw sums. */
  lemma {:induction false} DotOfDeviations(xs: seq<int>, ys: seq<int>, x: int, y: int, k: nat)
    requires k <= |xs| == |ys|
    ensures Dot(Deviations(xs, x), Deviations(ys, y), k)
         == Dot(xs, ys, k) - y * Sum(xs, k) - x * Sum(ys, k) + k * x * y
  {
    if k > 0 {
      var j := k - 1;
      DotOfDeviations(xs, ys, x, y, j);
      assert Deviations(xs, x)[j] == xs[j] - x && Deviations(ys, y)[j] == ys[j] - y;
      DeviationStep(Dot(Deviations(xs, x), Deviations(ys, y), j), Dot(xs, ys, j), Sum(xs, j), Sum(ys, j),
        j, xs[j], ys[j], x, y);
    }
  }

  lemma DeviationStep(rest: int, d: int, sx: int, sy: int, j: int, u: int, v: int, x: int, y: int)
    requires rest == d - y * sx - x * sy + j * x * y
    ensures rest + (u - x) * (v - y) == (d + u * v) - y * (sx + u) - x * (sy + v) + (j + 1) * x * y
  {
    assert (u - x) * (v - y) == u * v - y * u - x * v + x * y;
    assert y * (sx + u) == y * sx + y * u;
    assert x * (sy + v) == x * sy + x * v;
    assert (j + 1) * x * y == j * x * y + x * y;
  }

  /** The pairwise form agrees with the raw-sum formula `n * Σxy - Σx * Σy` the library evaluates. */
  lemma {:induction false} CovariationIsRawSums(xs: seq<int>, ys: seq<int>, k: nat)
    requires k <= |xs| == |ys|
    ensures Covariation(xs, ys, k) == k * Dot(xs, ys, k) - Sum(xs, k) * Sum(ys, k)
  {
    if k > 0 {
      var j := k - 1;
      CovariationIsRawSums(xs, ys, j);
      DotOfDeviations(xs, ys, xs[j], ys[j], j);
      RawSumsStep(j, Dot(xs, ys, j), Sum(xs, j), Sum(ys, j), xs[j], ys[j]);
    }
  }

  lemma RawSumsStep(j: int, d: int, sx: int, sy: int, x: int, y: int)
    ensures (j * d - sx * sy) + (d - y * sx - x * sy + j * x * y)
         == (j + 1) * (d + x * y) - (sx + x) * (sy + y)
  {
    assert (j + 1) * (d + x * y) == j * d + d + j * x * y + x * y;
    assert (sx + x) * (sy + y) == sx * sy + sx * y + x * sy + x * y;
  }
}
