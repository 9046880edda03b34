/** The one-pass maximum drawdown of an equity curve (_range_stats in
    core/equity_tracker.py). */
module Drawdown {
  import opened Numbers

  /** The fall from a peak, in percent of the peak. */
  function Drop(peak: real, equity: real): real
    requires peak > 0.0
  {
    (peak - equity) / peak * 100.0
  }

  function RunningPeak(es: seq<real>): real
    requires es != []
  {
    var n := |es| - 1;
    if n == 0 then es[0] else Max(RunningPeak(es[..n]), es[n])
  }

  /** The largest fall from the running peak. */
  function OnePass(es: seq<real>): real {
    if es == [] then 0.0
    else
      var n := |es| - 1;
      var before, peak := OnePass(es[..n]), RunningPeak(es);
      if peak > 0.0 then Max(before, Drop(peak, es[n])) else before
  }

  method MaxDrawdown(equities: seq<real>) returns (maxDd: real)
    requires equities != []
    ensures maxDd == OnePass(equities)
  {
    hide Drop;
    maxDd := 0.0;
    var runPeak := equities[0];
    for i := 0 to |equities|
      invariant maxDd == OnePass(equities[..i])
      invariant runPeak == if i == 0 then equities[0] else RunningPeak(equities[..i])
    {
      assert equities[..i + 1][..i] == equities[..i];
      runPeak := Max(runPeak, equities[i]);
      if runPeak > 0.0 { maxDd := Max(maxDd, Drop(runPeak, equities[i])); }
    }
    assert equities[..|equities|] == equities;
  }

  // ----- The quadratic definition ------------------------------------------------------

  predicate Pair(es: seq<real>, i: int, j: int) { 0 <= i <= j < |es| && es[i] > 0.0 }

  predicate PairFalls(es: seq<real>, i: int, j: int, d: real) { Pair(es, i, j) && d == Drop(es[i], es[j]) }

  /** m is the largest fall from any earlier positive equity to a later one
      (0 when there is no positive equity). */
  ghost predicate IsMaxDrawdown(es: seq<real>, m: real) {
    && (forall i, j :: Pair(es, i, j) ==> Drop(es[i], es[j]) <= m)
    && ((exists i, j :: PairFalls(es, i, j, m)) || (m == 0.0 && forall i :: 0 <= i < |es| ==> es[i] <= 0.0))
  }

  lemma {:induction false} PeakIsMaximum(es: seq<real>) returns (k: nat)
    requires es != []
    ensures k < |es| && es[k] == RunningPeak(es) && forall i :: 0 <= i < |es| ==> es[i] <= RunningPeak(es)
  {
    var n := |es| - 1;
    k := n;
    if n > 0 {
      var k' := PeakIsMaximum(es[..n]);
      if es[n] <= es[k'] { k := k'; }
      forall i | 0 <= i < n ensures es[i] <= RunningPeak(es) { assert es[..n][i] <= RunningPeak(es[..n]); }
    }
  }

  lemma DropScaled(peak: real, equity: real)
    requires peak > 0.0
    ensures Drop(peak, equity) == 100.0 - equity / peak * 100.0
  {
    var a, b := (peak - equity) / peak, 1.0 - equity / peak;
    MulDiv(peak - equity, peak);
    MulDiv(equity, peak);
    Distribute(1.0, equity / peak, peak);
    assert a * peak == b * peak;
    CancelMul(a, b, peak);
    CancelMul(b, a, peak);
  }

  lemma ScalesDown(low: real, high: real, b: real)
    requires low <= high && b >= 0.0
    ensures b * low <= b * high
  {
    PositiveProduct(high - low, b);
    Distribute(high, low, b);
  }

  /** From a higher peak a nonnegative equity has fallen further. */
  lemma HigherPeakFallsFurther(low: real, high: real, equity: real)
    requires 0.0 < low <= high && equity >= 0.0
    ensures Drop(low, equity) <= Drop(high, equity)
  {
    DropScaled(low, equity);
    DropScaled(high, equity);
    hide Drop;
    var a, b := equity / low, equity / high;
    MulDiv(equity, low);
    MulDiv(equity, high);
    DivMonotone(0.0, equity, high);
    assert b >= 0.0;
    ScalesDown(low, high, b);
    var bl, bh, al := b * low, b * high, a * low;
    assert al == equity && bh == equity && bl <= al;
    CancelMul(b, a, low);
  }

  lemma DropOfSelf(e: real)
    requires e > 0.0
    ensures Drop(e, e) == 0.0
  {}

  lemma FallFromPeak(es: seq<real>, i: int, j: int)
    requires Pair(es, i, j) && es[j] >= 0.0
    ensures var p := RunningPeak(es[..j + 1]); p > 0.0 && Drop(es[i], es[j]) <= Drop(p, es[j])
  {
    var k := PeakIsMaximum(es[..j + 1]);
    assert es[..j + 1][i] == es[i];
    HigherPeakFallsFurther(es[i], RunningPeak(es[..j + 1]), es[j]);
  }

  /** Every fall to a nonnegative equity is within what the loop reports. */
  lemma {:induction false} NonnegativeFallsAreCovered(es: seq<real>, i: int, j: int)
    requires Pair(es, i, j) && es[j] >= 0.0
    ensures Drop(es[i], es[j]) <= OnePass(es)
  {
    hide Drop;
    var n := |es| - 1;
    if j < n {
      NonnegativeFallsAreCovered(es[..n], i, j);
    } else {
      assert es[..n + 1] == es;
      FallFromPeak(es, i, j);
    }
  }

  predicate NoPositive(es: seq<real>) { forall i :: 0 <= i < |es| ==> es[i] <= 0.0 }

  /** What the loop reports is always some pair's fall. */
  lemma {:induction false} OnePassIsAttained(es: seq<real>)
    ensures if NoPositive(es) then OnePass(es) == 0.0 else exists i, j :: PairFalls(es, i, j, OnePass(es))
  {
    hide Drop;
    if es != [] {
      var n := |es| - 1;
      OnePassIsAttained(es[..n]);
      var before, m := OnePass(es[..n]), OnePass(es);
      var k := PeakIsMaximum(es);
      assert forall i :: 0 <= i < n ==> es[..n][i] == es[i];
      if es[k] > 0.0 {
        if m != before {
          assert PairFalls(es, k, n, m);
        } else if i, j :| PairFalls(es[..n], i, j, before) {
          assert PairFalls(es, i, j, m);
        } else {
          assert k == n;
          DropOfSelf(es[n]);
          assert PairFalls(es, n, n, m);
        }
      }
    }
  }

  /** No fall to a negative equity exceeds d. */
  ghost predicate NegativeFallsWithin(es: seq<real>, d: real) {
    forall i, j :: Pair(es, i, j) && es[j] < 0.0 ==> Drop(es[i], es[j]) <= d
  }

  /** On any curve the one-pass loop computes the quadratic maximum exactly when no
      fall to a negative equity exceeds what it reports. */
  lemma OnePassIsExactIff(es: seq<real>)
    ensures IsMaxDrawdown(es, OnePass(es)) <==> NegativeFallsWithin(es, OnePass(es))
  {
    hide Drop, OnePass;
    var m := OnePass(es);
    OnePassIsAttained(es);
    if NegativeFallsWithin(es, m) {
      forall i, j | Pair(es, i, j) ensures Drop(es[i], es[j]) <= m {
        if es[j] >= 0.0 { NonnegativeFallsAreCovered(es, i, j); }
      }
    }
  }

  predicate AtLeast(es: seq<real>, b: real) { forall i :: 0 <= i < |es| ==> es[i] >= b }

  ghost predicate ExactFrom(b: real) { forall es :: AtLeast(es, b) ==> IsMaxDrawdown(es, OnePass(es)) }

  /** The loop is exact on every curve bounded below by b exactly when b is not
      negative. */
  lemma ExactIffNonnegative(b: real)
    ensures ExactFrom(b) <==> b >= 0.0
  {
    if b >= 0.0 {
      forall es | AtLeast(es, b) ensures IsMaxDrawdown(es, OnePass(es)) { OnePassIsMaxDrawdown(es); }
    } else {
      NegativeEquityIsUnderstated(b);
      assert AtLeast([1.0, 2.0, b], b);
    }
  }

  /** For nonnegative equities the one-pass loop computes the quadratic maximum. */
  lemma OnePassIsMaxDrawdown(es: seq<real>)
    requires AtLeast(es, 0.0)
    ensures IsMaxDrawdown(es, OnePass(es))
  {
    OnePassIsExactIff(es);
  }

  /** From 1 and 2 to any b below 0 the loop reports the fall from 2, which is less
      than the fall from 1. */
  lemma NegativeEquityIsUnderstated(b: real)
    requires b < 0.0
    ensures var es := [1.0, 2.0, b];
            OnePass(es) == Drop(2.0, b) < Drop(1.0, b) && Pair(es, 0, 2) && !IsMaxDrawdown(es, OnePass(es))
  {
    var es := [1.0, 2.0, b];
    assert es[..2] == [1.0, 2.0] && [1.0, 2.0][..1] == [1.0] && [1.0][..0] == [];
    assert RunningPeak(es) == 2.0 && OnePass([1.0, 2.0]) == 0.0;
    assert Drop(2.0, b) == 100.0 - 50.0 * b && Drop(1.0, b) == 100.0 - 100.0 * b;
    assert Pair(es, 0, 2) && es[0] == 1.0 && es[2] == b;
  }

  lemma DropBelowHundred(peak: real, equity: real)
    requires peak > 0.0 && equity > 0.0
    ensures Drop(peak, equity) < 100.0
  {
    DropScaled(peak, equity);
    MulDiv(equity, peak);
    DivMonotone(0.0, equity, peak);
  }

  /** Positive equities never draw down by 100 percent. */
  lemma DrawdownIsBelowHundred(es: seq<real>)
    requires es != [] && forall i :: 0 <= i < |es| ==> es[i] > 0.0
    ensures 0.0 <= OnePass(es) < 100.0
  {
    hide Drop, OnePass;
    OnePassIsMaxDrawdown(es);
    assert Pair(es, 0, 0);
    DropOfSelf(es[0]);
    var i, j :| PairFalls(es, i, j, OnePass(es));
    DropBelowHundred(es[i], es[j]);
  }
}
