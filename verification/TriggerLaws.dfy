/** Triggers, trail distances and activation in plain arithmetic: laws that the stop
    engine's and the paper broker's are stated with. */
module TriggerLaws {
  import opened Numbers
  import opened ExitManager

  /** How far a price is from entry in the side's favour. */
  function MoveOf(side: Side, entry: real, price: real): real {
    if side == Buy then price - entry else entry - price
  }

  /** The price d beyond `from` in the side's favour. */
  function BeyondOf(side: Side, from: real, d: real): real { if side == Buy then from + d else from - d }

  /** A trigger's distance: its points where the point size is known, else its ATR
      multiple. */
  predicate IsDistance(points: Option<real>, atrMult: real, atr: real, point: Option<real>, d: real) {
    if points.Some? && point.Some? && point.value > 0.0 then d == points.value * point.value else d == atr * atrMult
  }

  predicate UsdReached(usd: Option<real>, profit: Option<real>) {
    usd.Some? && profit.Some? && profit.value >= usd.value
  }

  /** A trigger is met exactly by the USD profit or from its distance on. */
  lemma TriggerIff(profit: Option<real>, move: real, t: Trigger, atr: real, point: Option<real>, d: real)
    requires IsDistance(t.points, t.atrMult, atr, point, d)
    ensures TriggerMet(profit, move, t, atr, point) <==> UsdReached(t.usd, profit) || move >= d
  {}

  /** The loss at the stop; not positive where it locks a profit. */
  function RiskOf(side: Side, entry: real, sl: real): real { if side == Buy then entry - sl else sl - entry }

  predicate IsWorth(move: real, risk: real, minRr: real) { if risk > 0.0 then move >= minRr * risk else minRr <= 0.0 }

  /** A price is worth minRr units of risk exactly from that many times the risk on. */
  lemma RrIff(side: Side, entry: real, sl: real, price: real, minRr: real)
    ensures ProfitRr(side, entry, sl, price) >= minRr
       <==> IsWorth(MoveOf(side, entry, price), RiskOf(side, entry, sl), minRr)
  {
    var risk := RiskOf(side, entry, sl);
    if risk > 0.0 { QuotientAtLeast(MoveOf(side, entry, price), risk, minRr); }
  }

  /** What arms a trail: its own trigger at distance d; or, where it is deferred, a
      partial, enough units of risk, or an early USD profit. */
  predicate Arms(move: real, risk: real, partialDone: bool, profit: Option<real>, usd: Option<real>, d: real,
                 defer: DeferCfg)
  {
    if !defer.requirePartialOrRr then UsdReached(usd, profit) || move >= d
    else || partialDone
         || IsWorth(move, risk, defer.minRr)
         || (defer.allowEarlyUsd && UsdReached(defer.earlyUsd, profit))
  }

  lemma ActivationIff(side: Side, entry: real, sl: real, price: real, trailing: bool, partialDone: bool,
                      profit: Option<real>, t: Trigger, defer: DeferCfg, atr: real, point: Option<real>, d: real)
    requires IsDistance(t.points, t.atrMult, atr, point, d)
    ensures TrailActivationAllowed(trailing, partialDone, ProfitRr(side, entry, sl, price), profit,
                                   MoveOf(side, entry, price), t, defer, atr, point)
       <==> trailing || Arms(MoveOf(side, entry, price), RiskOf(side, entry, sl), partialDone, profit, t.usd, d, defer)
  {
    RrIff(side, entry, sl, price, defer.minRr);
    TriggerIff(profit, MoveOf(side, entry, price), t, atr, point, d);
    hide ProfitRr, TriggerMet, IsDistance, IsWorth;
  }

  // ----- Trail distances -----------------------------------------------------------

  /** k whole points, at least one, nearest to an ATR multiple. */
  predicate IsNearest(k: int, d: real, atr: real, mult: real, point: real) {
    d == k as real * point && k >= 1
    && (if k == 1 then atr * mult <= 1.5 * point else -0.5 * point <= atr * mult - d <= 0.5 * point)
  }

  ghost predicate NearestPoints(d: real, atr: real, mult: real, point: real) {
    exists k: int :: IsNearest(k, d, atr, mult, point)
  }

  lemma ScaledError(x: real, k: real, point: real, target: real)
    requires point > 0.0 && x * point == target && -0.5 <= x - k <= 0.5
    ensures -0.5 * point <= target - k * point <= 0.5 * point
  {
    var e, half := x - k, 0.5 * point;
    Distribute(x, k, point);
    var kp := k * point;
    var ep := e * point;
    assert ep == target - kp;
    MulMonotone(-0.5, e, point);
    MulMonotone(e, 0.5, point);
    assert -half <= ep <= half;
  }

  /** The trail distance before tightening: the whole points nearest to an ATR
      multiple where the point size and the ATR are known, that multiple where they
      are not; else the configured points; else a multiple of the ATR.  None
      exactly where configured points meet an unknown point size. */
  lemma TrailDistanceLaw(t: TrailSpec, atr: real, point: Option<real>)
    ensures var known, d := point.Some? && point.value > 0.0, TrailDistance(t, atr, point);
            && (d.None? <==> t.pointsAtrMult.None? && t.points.Some? && !known)
            && (t.pointsAtrMult.Some? && known && atr > 0.0
                ==> NearestPoints(d.value, atr, t.pointsAtrMult.value, point.value))
            && (t.pointsAtrMult.Some? && !(known && atr > 0.0) ==> d.value == atr * t.pointsAtrMult.value)
            && (t.pointsAtrMult.None? && t.points.Some? && known ==> d.value == t.points.value * point.value)
            && (t.pointsAtrMult.None? && t.points.None? ==> d.value == atr * t.atrMult)
  {
    hide RoundInt, NearestPoints;
    if t.pointsAtrMult.Some? && point.Some? && point.value > 0.0 && atr > 0.0 { PointsFromAtr(t, atr, point.value); }
  }

  lemma PointsFromAtr(t: TrailSpec, atr: real, p: real)
    requires t.pointsAtrMult.Some? && p > 0.0 && atr > 0.0
    ensures NearestPoints(TrailDistance(t, atr, Some(p)).value, atr, t.pointsAtrMult.value, p)
  {
    var m, d := t.pointsAtrMult.value, TrailDistance(t, atr, Some(p)).value;
    FromAtr(t, atr, p);
    InPointsTimes(atr, p, m);
    hide TrailDistance, RoundInt, InPoints;
    WholePoints(InPoints(atr, p, m), atr, m, p, PointsBehind(atr, p, m), d);
    assert IsNearest(PointsBehind(atr, p, m), d, atr, m, p);
  }

  lemma InPointsTimes(atr: real, p: real, m: real)
    requires p > 0.0
    ensures InPoints(atr, p, m) * p == atr * m
  {
    MulDiv(atr, p);
    var q := atr / p;
    assert q * m * p == q * p * m;
  }

  lemma FromAtr(t: TrailSpec, atr: real, p: real)
    requires t.pointsAtrMult.Some? && p > 0.0 && atr > 0.0
    ensures TrailDistance(t, atr, Some(p)).value == PointsBehind(atr, p, t.pointsAtrMult.value) as real * p
  {
    hide PointsBehind;
  }

  lemma WholePoints(x: real, atr: real, m: real, p: real, n: int, d: real)
    requires p > 0.0 && x * p == atr * m && d == n as real * p && n == if RoundInt(x) < 1 then 1 else RoundInt(x)
    ensures IsNearest(n, d, atr, m, p)
  {
    var target := atr * m;
    var k := RoundInt(x);
    RoundIntNear(x);
    hide RoundInt;
    var kp := k as real * p;
    ScaledError(x, k as real, p, target);
    if k < 1 {
      MulMonotone(k as real, 0.0, p);
      assert kp <= 0.0 && d == p;
    } else {
      assert d == kp && (n == 1 ==> d == p);
    }
  }

  // ----- Partial take-profit ---------------------------------------------------------

  /** The lock that a partial leaves on the runner: a share of the initial risk where
      there is one, else an ATR multiple. */
  predicate IsRunnerLock(risk: real, atr: real, run: RunnerCfg, k: real) {
    if risk > 0.0 && run.lockRr > 0.0 then k == risk * run.lockRr else k == atr * run.lockAtr
  }

  lemma RunnerLockIs(entry: real, sl: real, side: Side, atr: real, run: RunnerCfg, k: real)
    requires IsRunnerLock(RiskOf(side, entry, sl), atr, run, k)
    ensures PostPartialLock(entry, sl, side, atr, run) == k
    ensures PostPartialSl(side, entry, sl, atr, run) == BeyondOf(side, entry, k)
  {}

  /** n hundredths of a lot are the most that fit in the part to close. */
  predicate FitsIn(n: int, size: real, fraction: real) {
    var part := if fraction < 1.0 then size * fraction else size;
    n as real * 0.01 <= part + 0.00000000001 < (n + 1) as real * 0.01
  }

  lemma HundredthsFit(part: real, n: int)
    requires n == LotSteps(part, LOT)
    ensures n as real * 0.01 <= part + 0.00000000001 < (n + 1) as real * 0.01
  {
    var x := part / LOT;
    assert x * 0.01 == part;
    assert n as real <= x + 0.000000001 < n as real + 1.0;
  }

  /** The volume closed at TP1: the most hundredths of a lot within the configured
      fraction, at least one, where they leave the least remainder; else nothing. */
  lemma CloseVolumeIsLargest(size: real, fraction: real, minRemain: real) returns (n: int)
    requires size > 0.0 && fraction > 0.0
    ensures FitsIn(n, size, fraction)
    ensures var v := n as real * 0.01;
            PartialCloseVolume(size, fraction, minRemain) == if n >= 1 && Round2(size - v) >= minRemain then v else 0.0
  {
    var part := if fraction < 1.0 then size * fraction else size;
    n := LotSteps(part, LOT);
    hide *;
    PartIs(size, fraction, part);
    HundredthsFit(part, n);
    HundredthsAreLots(n);
    ClosesRounded(size, fraction, minRemain, n, n as real * 0.01);
    Fits(n, size, fraction, part);
  }

  lemma Fits(n: int, size: real, fraction: real, part: real)
    requires part == if fraction < 1.0 then size * fraction else size
    requires n as real * 0.01 <= part + 0.00000000001 < (n + 1) as real * 0.01
    ensures FitsIn(n, size, fraction)
  {}

  lemma ClosesRounded(size: real, fraction: real, minRemain: real, n: int, v: real)
    requires size > 0.0 && fraction > 0.0 && n == LotSteps(PartOf(size, fraction), LOT)
    requires v == Round2(n as real * LOT) == n as real * 0.01
    ensures PartialCloseVolume(size, fraction, minRemain) == if n >= 1 && Round2(size - v) >= minRemain then v else 0.0
  {
    hide LotSteps, PartOf, Round2;
    assert v < LOT <==> n < 1;
  }

  lemma PartIs(size: real, fraction: real, part: real)
    requires part == if fraction < 1.0 then size * fraction else size
    ensures PartOf(size, fraction) == part
  {
    SameProduct(size, Min(1.0, fraction), if fraction < 1.0 then fraction else 1.0);
    assert size * 1.0 == size;
  }

  lemma HundredthsAreLots(n: int)
    ensures Round2(n as real * LOT) == n as real * 0.01
  {
    var v := n as real * 0.01;
    assert v * 100.0 == n as real;
    assert OnGrid(v, 100.0);
    RoundFixesGrid(v, 100.0);
    hide Round;
  }

  /** n volume steps are the most that fit in the part to close, with 1e-9 of a step of
      slack. */
  predicate StepsFitIn(n: int, part: real, step: real) {
    StepVolume(n, step) <= part + 0.000000001 * step && part + 0.000000001 * step < StepVolume(n + 1, step)
  }

  lemma Below(a: real, b: real, s: real, scaledA: real, scaledB: real)
    requires s > 0.0 && scaledA == a * s && scaledB == b * s
    ensures a <= b <==> scaledA <= scaledB
  {
    if a <= b { MulMonotone(a, b, s); }
    if scaledA <= scaledB { CancelMul(a, b, s); }
  }

  lemma StepsFit(part: real, step: real, n: int)
    requires step > 0.0 && n == LotSteps(part, step)
    ensures StepsFitIn(n, part, step)
  {
    var x := part / step;
    var y := x + 0.000000001;
    assert n as real <= y < (n + 1) as real;
    hide LotSteps;
    MulDiv(part, step);
    var ys := y * step;
    assert ys == part + 0.000000001 * step;
    Below(n as real, y, step, StepVolume(n, step), ys);
    Below((n + 1) as real, y, step, StepVolume(n + 1, step), ys);
  }

  /** For any positive volume step: the most steps within the configured fraction, to
      two decimals, where they are the least volume and leave the least remainder; else
      nothing. */
  lemma BrokerVolumeIsLargest(size: real, fraction: real, minRemain: real, volumeMin: real, step: real, part: real)
    returns (n: int)
    requires size > 0.0 && fraction > 0.0 && step > 0.0 && part == if fraction < 1.0 then size * fraction else size
    ensures StepsFitIn(n, part, step)
    ensures BrokerCloseVolume(size, fraction, minRemain, volumeMin, step)
         == Allowed(size, Round2(StepVolume(n, step)), minRemain, volumeMin)
  {
    n := LotSteps(part, step);
    PartIs(size, fraction, part);
    hide LotSteps, PartOf, Round2, StepVolume, StepsFitIn;
    StepsFit(part, step, n);
  }

  function Allowed(size: real, v: real, minRemain: real, volumeMin: real): real {
    if v >= volumeMin && Round2(size - v) >= minRemain then v else 0.0
  }

  lemma NothingToClose(size: real, fraction: real, minRemain: real, volumeMin: real, step: real)
    requires (size <= 0.0 || fraction <= 0.0) && step > 0.0
    ensures BrokerCloseVolume(size, fraction, minRemain, volumeMin, step) == 0.0
  {}
}
