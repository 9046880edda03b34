/** Optional values, extrema, decimal rounding and sums shared by the models. */
module Numbers {

  datatype Option<+T> = None | Some(value: T)

  function Max(a: real, b: real): real { if a < b then b else a }

  function Min(a: real, b: real): real { if b < a then b else a }

  function Abs(a: real): real { if a < 0.0 then -a else a }

  // ----- Decimal rounding -------------------------------------------------

  /** Nearest integer, ties to even: Python's round(x). */
  function RoundInt(x: real): (k: int)
    ensures -0.5 <= x - k as real <= 0.5
  {
    var f := x.Floor;
    var d := x - f as real;
    if d < 0.5 || (d == 0.5 && f % 2 == 0) then f else f + 1
  }

  /** round(x, n) where scale is 10^n. */
  function Round(x: real, scale: real): real
    requires scale > 0.0
  {
    RoundInt(x * scale) as real / scale
  }

  const GRID := 100_000.0

  /** The price grid that stored stops are rounded to (5 decimals). */
  function Round5(x: real): real { Round(x, GRID) }

  predicate OnGrid(x: real, scale: real)
  {
    (x * scale).Floor as real == x * scale
  }

  lemma RoundIntMonotone(x: real, y: real)
    requires x <= y
    ensures RoundInt(x) <= RoundInt(y)
  {}

  lemma MulMonotone(x: real, y: real, s: real)
    requires x <= y && s > 0.0
    ensures x * s <= y * s
  {}

  lemma PositiveProduct(a: real, b: real)
    ensures a > 0.0 && b > 0.0 ==> a * b > 0.0
    ensures a >= 0.0 && b >= 0.0 ==> a * b >= 0.0
  {}

  lemma CancelMul(x: real, y: real, s: real)
    requires x * s <= y * s && s > 0.0
    ensures x <= y
  {}

  lemma DivMonotone(x: real, y: real, s: real)
    requires x <= y && s > 0.0
    ensures x / s <= y / s
  {
    CancelMul(x / s, y / s, s);
  }

  lemma MulDiv(x: real, s: real)
    requires s > 0.0
    ensures x / s * s == x && x * s / s == x
  {}

  lemma QuotientAtLeast(a: real, b: real, q: real)
    requires b > 0.0
    ensures a / b >= q <==> a >= q * b
  {
    MulDiv(a, b);
    if a / b >= q { MulMonotone(q, a / b, b); }
    if a >= q * b { CancelMul(q, a / b, b); }
  }

  lemma SameProduct(a: real, b: real, c: real)
    requires b == c
    ensures a * b == a * c
  {}

  lemma DivSelf(k: real)
    requires k != 0.0
    ensures k / k == 1.0
  {}

  lemma RoundMonotone(x: real, y: real, scale: real)
    requires scale > 0.0 && x <= y
    ensures Round(x, scale) <= Round(y, scale)
  {
    hide RoundInt;
    var p, q := x * scale, y * scale;
    MulMonotone(x, y, scale);
    assert p <= q;
    RoundIntMonotone(p, q);
    DivMonotone(RoundInt(p) as real, RoundInt(q) as real, scale);
  }

  lemma RoundFixesGrid(x: real, scale: real)
    requires scale > 0.0 && OnGrid(x, scale)
    ensures Round(x, scale) == x
  {
    assert RoundInt(x * scale) as real == x * scale;
  }

  lemma RoundLandsOnGrid(x: real, scale: real)
    requires scale > 0.0
    ensures OnGrid(Round(x, scale), scale)
  {
    var k := RoundInt(x * scale);
    MulDiv(k as real, scale);
    assert Round(x, scale) * scale == k as real;
    assert (k as real).Floor == k;
  }

  lemma Distribute(a: real, b: real, s: real)
    ensures (a - b) * s == a * s - b * s
  {}

  lemma Within(q: real, x: real, h: real, scale: real, qs: real, xs: real, hs: real)
    requires scale > 0.0 && q * scale == qs && x * scale == xs && h * scale == hs && qs - xs <= hs
    ensures q - x <= h
  {
    Distribute(q, x, scale);
    CancelMul(q - x, h, scale);
  }

  lemma RoundIntNear(x: real)
    ensures -0.5 <= x - RoundInt(x) as real <= 0.5
  {}

  /** Rounding gives the nearest integer, and the even one of two as near. */
  lemma NearestOrEven(x: real, k: int)
    ensures RoundInt(x) == k
       <==> Abs(x - k as real) <= 0.5 && (Abs(x - k as real) == 0.5 ==> k % 2 == 0)
  {
    var f := x.Floor;
    if k <= f - 1 { assert x - k as real >= 1.0; }
    if k >= f + 2 { assert k as real - x > 1.0; }
  }

  lemma RoundError(x: real, scale: real)
    requires scale > 0.0
    ensures Abs(Round(x, scale) - x) <= 0.5 / scale
  {
    hide RoundInt;
    var p := x * scale;
    var k, q, h := RoundInt(p) as real, Round(x, scale), 0.5 / scale;
    RoundIntNear(p);
    MulDiv(k, scale);
    MulDiv(0.5, scale);
    Within(q, x, h, scale, k, p, 0.5);
    Within(x, q, h, scale, p, k, 0.5);
  }

  /** Two different grid prices are at least one grid step apart. */
  lemma GridGap(x: real, y: real, scale: real)
    requires scale > 0.0 && OnGrid(x, scale) && OnGrid(y, scale) && x < y
    ensures x + 1.0 / scale <= y
  {
    var i, j := (x * scale).Floor, (y * scale).Floor;
    assert (y - x) * scale > 0.0;
    assert i + 1 <= j;
    DivMonotone(x * scale + 1.0, y * scale, scale);
    MulDiv(x, scale);
    MulDiv(y, scale);
    assert (x * scale + 1.0) / scale == x + 1.0 / scale;
  }

  // ----- Sums -------------------------------------------------------------

  function Sum(xs: seq<real>): real
  {
    if xs == [] then 0.0 else Sum(xs[..|xs| - 1]) + xs[|xs| - 1]
  }

  lemma SumSnoc(xs: seq<real>, x: real)
    ensures Sum(xs + [x]) == Sum(xs) + x
  {
    assert (xs + [x])[..|xs|] == xs;
  }

  lemma {:induction false} SumConcat(xs: seq<real>, ys: seq<real>)
    ensures Sum(xs + ys) == Sum(xs) + Sum(ys)
  {
    if ys == [] {
      assert xs + ys == xs;
    } else {
      var n := |ys| - 1;
      SumConcat(xs, ys[..n]);
      assert xs + ys == (xs + ys[..n]) + [ys[n]];
      SumSnoc(xs + ys[..n], ys[n]);
    }
  }

  // ----- Variance by moments ------------------------------------------------

  function Squared(x: real): real { x * x }

  function SumOfSquares(xs: seq<real>): real {
    if xs == [] then 0.0 else SumOfSquares(xs[..|xs| - 1]) + Squared(xs[|xs| - 1])
  }

  /** The variance by moments: the mean of the squares less the square of the mean. */
  function MomentVariance(xs: seq<real>): real
    requires xs != []
  {
    var n := |xs| as real;
    SumOfSquares(xs) / n - (Sum(xs) / n) * (Sum(xs) / n)
  }

  function SquareAbout(x: real, m: real): real { (x - m) * (x - m) }

  /** The sum of squares about m, from the plain sums of n numbers and their squares. */
  function About(q: real, s: real, n: real, m: real): real { q - 2.0 * (m * s) + n * (m * m) }

  lemma {:induction false} SquaresAround(xs: seq<real>, ys: seq<real>, m: real)
    requires |ys| == |xs| && forall i :: 0 <= i < |xs| ==> ys[i] == SquareAbout(xs[i], m)
    ensures Sum(ys) == About(SumOfSquares(xs), Sum(xs), |xs| as real, m)
  {
    hide *;
    if xs == [] {
      AboutNothing(xs, ys, m);
    } else {
      var n, x := |xs| - 1, xs[|xs| - 1];
      SquaresAround(xs[..n], ys[..n], m);
      SumParts(xs, x);
      SumParts(ys, SquareAbout(x, m));
      AroundStep(SumOfSquares(xs[..n]), Sum(xs[..n]), n as real, x, m);
      assert |xs| as real == n as real + 1.0;
    }
  }

  lemma AboutNothing(xs: seq<real>, ys: seq<real>, m: real)
    requires xs == [] && ys == []
    ensures Sum(ys) == About(SumOfSquares(xs), Sum(xs), |xs| as real, m)
  {
    assert m * 0.0 == 0.0 && 0.0 * (m * m) == 0.0;
  }

  lemma SumParts(xs: seq<real>, x: real)
    requires xs != [] && x == xs[|xs| - 1]
    ensures Sum(xs) == Sum(xs[..|xs| - 1]) + x
    ensures SumOfSquares(xs) == SumOfSquares(xs[..|xs| - 1]) + Squared(x)
  {
    hide Squared;
  }

  lemma AroundStep(q: real, s: real, n: real, x: real, m: real)
    ensures About(q, s, n, m) + SquareAbout(x, m) == About(q + Squared(x), s + x, n + 1.0, m)
  {
    var mm, ms, mx := m * m, m * s, m * x;
    assert m * (s + x) == ms + mx;
    assert (n + 1.0) * mm == n * mm + mm;
    assert (x - m) * (x - m) == x * x - 2.0 * mx + mm;
  }

  lemma MeanOfSquares(squares: real, sum: real, n: real, m: real, y: real)
    requires n > 0.0 && m * n == sum && y == About(squares, sum, n, m)
    ensures y / n == squares / n - m * m
  {
    var q, a, b := m * m, squares / n, y / n;
    MulDiv(squares, n);
    MulDiv(y, n);
    assert m * sum == n * q by { assert m * (m * n) == n * (m * m); }
    var an, bn, qn := a * n, b * n, q * n;
    assert bn == an - qn;
    Distribute(a, q, n);
    CancelMul(b, a - q, n);
    CancelMul(a - q, b, n);
  }

  function SquareList(xs: seq<real>, m: real): seq<real> {
    seq(|xs|, i requires 0 <= i < |xs| => SquareAbout(xs[i], m))
  }

  lemma MomentsAre(xs: seq<real>, n: real, m: real)
    requires xs != [] && n == |xs| as real && m == Sum(xs) / n
    ensures MomentVariance(xs) == SumOfSquares(xs) / n - m * m
  {
    hide Sum, SumOfSquares;
  }

  /** Squared distances from the mean average to the variance by moments. */
  lemma AverageByMoments(xs: seq<real>, n: real, m: real)
    requires xs != [] && n == |xs| as real && m == Sum(xs) / n
    ensures Sum(SquareList(xs, m)) / n == MomentVariance(xs)
  {
    hide *;
    ListsSquares(xs, m);
    SquaresAround(xs, SquareList(xs, m), m);
    MulDiv(Sum(xs), n);
    MomentsAre(xs, n, m);
    MeanOfSquares(SumOfSquares(xs), Sum(xs), n, m, Sum(SquareList(xs, m)));
  }

  lemma ListsSquares(xs: seq<real>, m: real)
    ensures var ys := SquareList(xs, m);
            |ys| == |xs| && forall i :: 0 <= i < |xs| ==> ys[i] == SquareAbout(xs[i], m)
  {}
}
