/** Profit-taking and runner exit rules (core/exit_manager.py) and the trigger
    and distance helpers of core/position_manager.py that they are used with. */
module ExitManager {
  import opened Numbers

  datatype Side = Buy | Sell

  /** The price `d` away from `base` in the side's favourable direction. */
  function Toward(side: Side, base: real, d: real): real {
    if side == Buy then base + d else base - d
  }

  function ProfitDistance(side: Side, entry: real, current: real): real {
    if side == Buy then current - entry else entry - current
  }

  function RiskDistance(entry: real, sl: real, side: Side): (r: real)
    ensures r >= 0.0
  {
    if side == Buy then Max(entry - sl, 0.0) else Max(sl - entry, 0.0)
  }

  function ProfitRr(side: Side, entry: real, sl: real, current: real): real {
    var risk := RiskDistance(entry, sl, side);
    if risk <= 0.0 then 0.0 else ProfitDistance(side, entry, current) / risk
  }

  /** True when `current` is at or past the target; a target <= 0 is absent. */
  predicate TpReached(side: Side, current: real, tp: real) {
    tp > 0.0 && if side == Buy then current >= tp else current <= tp
  }

  // ----- Triggers -----------------------------------------------------------

  /** A USD, broker-point or ATR-multiple trigger, per-symbol overrides resolved. */
  datatype Trigger = Trigger(usd: Option<real>, points: Option<real>, atrMult: real)

  function PointsToPrice(points: Option<real>, point: Option<real>): Option<real> {
    if points.None? || point.None? || point.value <= 0.0 then None
    else Some(points.value * point.value)
  }

  predicate DistanceTriggerMet(profitDist: real, t: Trigger, atr: real, point: Option<real>) {
    match PointsToPrice(t.points, point)
    case Some(d) => profitDist >= d
    case None => profitDist >= atr * t.atrMult
  }

  predicate UsdMet(profitUsd: Option<real>, usd: Option<real>) {
    profitUsd.Some? && usd.Some? && profitUsd.value >= usd.value
  }

  predicate TriggerMet(profitUsd: Option<real>, profitDist: real, t: Trigger, atr: real, point: Option<real>) {
    UsdMet(profitUsd, t.usd) || DistanceTriggerMet(profitDist, t, atr, point)
  }

  // ----- Trailing -----------------------------------------------------------

  datatype TrailSpec = TrailSpec(pointsAtrMult: Option<real>, points: Option<real>, atrMult: real)

  function InPoints(atr: real, point: real, mult: real): real
    requires point > 0.0
  {
    atr / point * mult
  }

  /** An ATR multiple in whole points, at least one. */
  function PointsBehind(atr: real, point: real, mult: real): int
    requires point > 0.0
  {
    var pts := RoundInt(InPoints(atr, point, mult));
    if pts < 1 then 1 else pts
  }

  /** Offset behind the peak; None where fixed broker points are configured but
      no positive point size is known (the Python code raises ValueError). */
  function TrailDistance(t: TrailSpec, atr: real, point: Option<real>): Option<real> {
    if t.pointsAtrMult.Some? then
      if point.Some? && point.value > 0.0 && atr > 0.0 then
        Some(PointsBehind(atr, point.value, t.pointsAtrMult.value) as real * point.value)
      else Some(t.pointsAtrMult.value * atr)
    else if t.points.Some? then
      if point.None? || point.value <= 0.0 then None else Some(t.points.value * point.value)
    else Some(atr * t.atrMult)
  }

  /** defer_trail_until, with the parent block's activation USD as `earlyUsd` default. */
  datatype DeferCfg = DeferCfg(requirePartialOrRr: bool, minRr: real, allowEarlyUsd: bool, earlyUsd: Option<real>)

  predicate TrailActivationAllowed(
    trailing: bool, partialDone: bool, rr: real, profitUsd: Option<real>, profitDist: real,
    activation: Trigger, defer: DeferCfg, atr: real, point: Option<real>)
  {
    trailing
    || (if !defer.requirePartialOrRr then TriggerMet(profitUsd, profitDist, activation, atr, point)
        else partialDone || rr >= defer.minRr || (defer.allowEarlyUsd && UsdMet(profitUsd, defer.earlyUsd)))
  }

  // ----- Partial take-profit ------------------------------------------------

  datatype RunnerCfg = RunnerCfg(lockRr: real, lockAtr: real, tightenMult: real, extendToTp2: bool)

  function TightenMultiplier(partialDone: bool, run: RunnerCfg): real {
    if partialDone then run.tightenMult else 1.0
  }

  function PostPartialLock(entry: real, sl: real, side: Side, atr: real, run: RunnerCfg): real {
    var risk := RiskDistance(entry, sl, side);
    if risk > 0.0 && run.lockRr > 0.0 then risk * run.lockRr else atr * run.lockAtr
  }

  function PostPartialSl(side: Side, entry: real, sl: real, atr: real, run: RunnerCfg): real {
    Toward(side, entry, PostPartialLock(entry, sl, side, atr, run))
  }

  const LOT := 0.01

  function Round2(x: real): real { Round(x, 100.0) }

  function PartOf(size: real, fraction: real): real { size * Min(1.0, fraction) }

  /** Whole lot steps in the part to close, with 1e-9 of slack. */
  function LotSteps(part: real, step: real): int
    requires step != 0.0
  {
    (part / step + 0.000000001).Floor
  }

  function StepVolume(n: int, step: real): real { n as real * step }

  /** Lots to close at TP1 for a broker's minimum volume and volume step (0 when the
      position cannot be split). */
  function BrokerCloseVolume(size: real, fraction: real, minRemain: real, volumeMin: real, step: real): (v: real)
    requires step != 0.0
    ensures v == 0.0 || (volumeMin <= v && fraction > 0.0 && minRemain <= Round2(size - v))
  {
    if size <= 0.0 || fraction <= 0.0 then 0.0
    else
      var v := Round2(StepVolume(LotSteps(PartOf(size, fraction), step), step));
      if v < volumeMin || Round2(size - v) < minRemain then 0.0 else v
  }

  /** The same at the paper defaults of 0.01. */
  function PartialCloseVolume(size: real, fraction: real, minRemain: real): real {
    BrokerCloseVolume(size, fraction, minRemain, LOT, LOT)
  }
}
