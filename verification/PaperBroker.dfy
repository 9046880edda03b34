/** Simulated fills, intrabar stop-first exits, partials and the cash ledger
    (core/paper_broker.py). */
module PaperBroker {
  import opened Numbers
  import opened ExitManager

  datatype BeBlock = BeBlock(
    enabled: bool, trigger: Trigger, lockPoints: Option<real>, lockUsd: Option<real>, lockAtrMult: real)

  datatype TrailBlock = TrailBlock(enabled: bool, spec: TrailSpec, activation: Trigger, defer: DeferCfg)

  /** Configuration as resolved for one symbol. */
  datatype SymbolCfg = SymbolCfg(
    be: BeBlock, trail: TrailBlock, run: RunnerCfg, point: Option<real>,
    partialEnabled: bool, fraction: real, minRemain: real)

  /** tp2 of 0 means "none". */
  datatype Position = Position(
    id: nat, symbol: string, side: Side, entry: real, sl: real, tp1: real, tp2: real, size: real, atr: real,
    beTriggered: bool, trailActive: bool, partialDone: bool, peak: real, initialSl: Option<real>,
    justOpened: bool, profitUsd: Option<real>)

  datatype Bar = Bar(high: real, low: real)

  /** The step's close and, if supplied, its high and low. */
  datatype Quote = Quote(close: real, bar: Option<Bar>)

  datatype Reason = StopLoss | BreakEvenStop | TrailingStop | TakeProfit

  datatype Outcome =
    | Hold(pos: Position)
    | Partial(pos: Position, exit: real, volume: real)
    | Close(pos: Position, exit: real, reason: Reason)

  // ----- One position, one step, declaratively --------------------------------

  function Favourable(p: Position, q: Quote): real {
    if p.justOpened || q.bar.None? then q.close else if p.side == Buy then q.bar.value.high else q.bar.value.low
  }

  function Adverse(p: Position, q: Quote): real {
    if p.justOpened || q.bar.None? then q.close else if p.side == Buy then q.bar.value.low else q.bar.value.high
  }

  predicate Tighter(side: Side, a: real, b: real) { if side == Buy then a > b else a < b }

  function Tightest(side: Side, a: real, b: real): real { if Tighter(side, b, a) then b else a }

  /** The adverse extreme has reached the stop. */
  predicate Hit(side: Side, adverse: real, sl: real) { !Tighter(side, adverse, sl) }

  predicate StopFirst(p: Position, q: Quote) { Hit(p.side, Adverse(p, q), p.sl) }

  function Atr(p: Position): real { if p.atr != 0.0 then p.atr else Abs(p.entry - p.sl) / 1.5 }

  function Gain(p: Position, q: Quote): real { ProfitDistance(p.side, p.entry, Favourable(p, q)) }

  predicate BeArmed(c: SymbolCfg, p: Position, q: Quote) {
    c.be.enabled && Atr(p) > 0.0
    && (p.beTriggered || TriggerMet(p.profitUsd, Gain(p, q), c.be.trigger, Atr(p), c.point))
  }

  function BeLockDistance(c: SymbolCfg, p: Position): real {
    var pts := PointsToPrice(c.be.lockPoints, c.point);
    if pts.Some? then pts.value
    else if UsdMet(p.profitUsd, c.be.trigger.usd) && c.be.lockUsd.Some? then Max(0.0, c.be.lockUsd.value)
    else Atr(p) * c.be.lockAtrMult
  }

  function BeLock(c: SymbolCfg, p: Position): real { Toward(p.side, p.entry, BeLockDistance(c, p)) }

  /** Peak, break-even and the initial stop, once the step survived stop-first. */
  function Advanced(c: SymbolCfg, p: Position, q: Quote): Position {
    var moved := BeArmed(c, p, q) && Tighter(p.side, BeLock(c, p), p.sl);
    p.(justOpened := false, peak := Tightest(p.side, p.peak, Favourable(p, q)),
       sl := if moved then BeLock(c, p) else p.sl, beTriggered := p.beTriggered || moved,
       initialSl := if p.initialSl.None? then Some(p.sl) else p.initialSl)
  }

  function RiskSl(p: Position, start: real): real {
    if p.initialSl.Some? && p.initialSl.value != 0.0 then p.initialSl.value else start
  }

  function PartialVolume(c: SymbolCfg, p: Position): real { PartialCloseVolume(p.size, c.fraction, c.minRemain) }

  predicate PartialFires(c: SymbolCfg, p: Position, q: Quote) {
    c.partialEnabled && !p.partialDone && TpReached(p.side, Favourable(p, q), p.tp1) && PartialVolume(c, p) > 0.0
  }

  /** The runner left after banking the partial at TP1. */
  function Runner(c: SymbolCfg, p: Position, q: Quote): Position {
    var a := Advanced(c, p, q);
    a.(size := Round2(p.size - PartialVolume(c, p)),
       sl := PostPartialSl(p.side, p.entry, RiskSl(a, p.sl), Atr(p), c.run),
       beTriggered := true, partialDone := true, tp1 := if p.tp2 != 0.0 then p.tp2 else p.tp1)
  }

  predicate TrailArmed(c: SymbolCfg, p: Position, q: Quote) {
    c.trail.enabled && Atr(p) > 0.0
    && TrailActivationAllowed(
         p.trailActive, p.partialDone,
         ProfitRr(p.side, p.entry, RiskSl(Advanced(c, p, q), p.sl), Favourable(p, q)),
         p.profitUsd, Gain(p, q), c.trail.activation, c.trail.defer, Atr(p), c.point)
  }

  /** Distance behind the peak; fixed broker points need a known point size. */
  function TrailOffset(c: SymbolCfg, p: Position): Option<real> {
    var d := TrailDistance(c.trail.spec, Atr(p), c.point);
    if d.None? then None else Some(d.value * TightenMultiplier(p.partialDone, c.run))
  }

  /** An armed trail without a known distance: the Python code raises ValueError. */
  predicate Raises(c: SymbolCfg, p: Position, q: Quote) {
    !StopFirst(p, q) && !PartialFires(c, p, q) && TrailArmed(c, p, q) && TrailOffset(c, p).None?
  }

  function TrailStop(c: SymbolCfg, p: Position, q: Quote): real
    requires TrailOffset(c, p).Some?
  {
    Toward(p.side, Advanced(c, p, q).peak, -TrailOffset(c, p).value)
  }

  predicate TrailMoves(c: SymbolCfg, p: Position, q: Quote) {
    TrailArmed(c, p, q) && TrailOffset(c, p).Some? && Tighter(p.side, TrailStop(c, p, q), Advanced(c, p, q).sl)
  }

  /** The position once the step's break-even and trailing moves are credited. */
  function Managed(c: SymbolCfg, p: Position, q: Quote): Position {
    var a := Advanced(c, p, q);
    if TrailMoves(c, p, q) then a.(sl := TrailStop(c, p, q), trailActive := true) else a
  }

  function StopReason(p: Position): Reason {
    if p.trailActive then TrailingStop else if p.beTriggered then BreakEvenStop else StopLoss
  }

  /** Stop first at the pre-step level; then this step's raised stop; then targets.
      (Where the step raises there is no outcome; see Raises.) */
  function ExitStep(c: SymbolCfg, p: Position, q: Quote): Outcome {
    var m := Managed(c, p, q);
    var fav := Favourable(p, q);
    if StopFirst(p, q) then Close(p.(justOpened := false), p.sl, StopReason(p))
    else if PartialFires(c, p, q) then Partial(Runner(c, p, q), p.tp1, PartialVolume(c, p))
    else if Hit(p.side, Adverse(p, q), m.sl) && (m.beTriggered || m.trailActive) then
      Close(m, m.sl, StopReason(m))
    else if p.partialDone && TpReached(p.side, fav, p.tp2) then Close(m, p.tp2, TakeProfit)
    else if !c.partialEnabled && !Tighter(p.side, p.tp1, fav) && !m.trailActive then Close(m, p.tp1, TakeProfit)
    else Hold(m)
  }

  function Pnl(p: Position, exit: real, volume: real): real { ProfitDistance(p.side, p.entry, exit) * volume }

  /** What the step realises in cash. */
  function Cash(p: Position, o: Outcome): real {
    match o
    case Hold(_) => 0.0
    case Partial(_, exit, v) => Pnl(p, exit, v)
    case Close(_, exit, _) => Pnl(p, exit, p.size)
  }

  // ----- One position, one step, as the loop body -------------------------------

  /** Peak, break-even latch and the initial stop. */
  method Advance(c: SymbolCfg, p: Position, q: Quote) returns (pos: Position)
    ensures pos == Advanced(c, p, q)
  {
    hide TriggerMet, BeLockDistance, Atr, Toward, ProfitDistance;
    pos := p.(justOpened := false);
    var fav := Favourable(p, q);
    pos := pos.(peak := Tightest(p.side, pos.peak, fav));
    var profit := ProfitDistance(p.side, p.entry, fav);
    if c.be.enabled && Atr(p) > 0.0
       && (pos.beTriggered || TriggerMet(p.profitUsd, profit, c.be.trigger, Atr(p), c.point))
    {
      var lockSl := Toward(p.side, p.entry, BeLockDistance(c, p));
      if Tighter(p.side, lockSl, pos.sl) { pos := pos.(sl := lockSl, beTriggered := true); }
    }
    if pos.initialSl.None? { pos := pos.(initialSl := Some(p.sl)); }
  }

  /** The trail block; raised where it is armed without a known distance. */
  method Trail(c: SymbolCfg, p: Position, q: Quote, a: Position) returns (raised: bool, pos: Position)
    requires a == Advanced(c, p, q)
    ensures raised == (TrailArmed(c, p, q) && TrailOffset(c, p).None?)
    ensures !raised ==> pos == Managed(c, p, q)
  {
    hide TrailActivationAllowed, TrailOffset, Atr, Toward, ProfitRr, Gain, BeArmed, BeLock, Tightest, Tighter;
    raised, pos := false, a;
    assert pos.trailActive == p.trailActive && pos.partialDone == p.partialDone;
    var rr := ProfitRr(p.side, p.entry, RiskSl(pos, p.sl), Favourable(p, q));
    if c.trail.enabled && Atr(p) > 0.0
       && TrailActivationAllowed(pos.trailActive, pos.partialDone, rr, p.profitUsd, Gain(p, q),
                                 c.trail.activation, c.trail.defer, Atr(p), c.point)
    {
      var dist := TrailOffset(c, p);
      if dist.None? { return true, pos; }
      var newSl := Toward(p.side, pos.peak, -dist.value);
      if Tighter(p.side, newSl, pos.sl) { pos := pos.(sl := newSl, trailActive := true); }
    }
  }

  method CheckPosition(c: SymbolCfg, p: Position, q: Quote) returns (raised: bool, out: Outcome)
    ensures raised == Raises(c, p, q)
    ensures !raised ==> out == ExitStep(c, p, q)
  {
    hide TrailArmed, TrailMoves, TrailOffset, Atr, PartialCloseVolume, PostPartialSl, Round2, BeArmed, BeLock, Tightest,
      Tighter;
    raised := false;
    var fav, adv := Favourable(p, q), Adverse(p, q);
    if Hit(p.side, adv, p.sl) {
      return false, Close(p.(justOpened := false), p.sl, StopReason(p));
    }
    var pos := Advance(c, p, q);
    if c.partialEnabled && !pos.partialDone && TpReached(p.side, fav, pos.tp1) {
      var v := PartialCloseVolume(pos.size, c.fraction, c.minRemain);
      if v > 0.0 {
        var tp1 := pos.tp1;
        var lockSl := PostPartialSl(p.side, p.entry, RiskSl(pos, p.sl), Atr(p), c.run);
        pos := pos.(size := Round2(pos.size - v), sl := lockSl, beTriggered := true, partialDone := true);
        pos := pos.(tp1 := if pos.tp2 != 0.0 then pos.tp2 else tp1);
        return false, Partial(pos, tp1, v);
      }
    }
    raised, pos := Trail(c, p, q, pos);
    if raised {
      return true, Hold(p);
    } else if Hit(p.side, adv, pos.sl) && (pos.beTriggered || pos.trailActive) {
      return false, Close(pos, pos.sl, StopReason(pos));
    } else if pos.partialDone && TpReached(p.side, fav, pos.tp2) {
      return false, Close(pos, pos.tp2, TakeProfit);
    } else if !c.partialEnabled && !Tighter(p.side, pos.tp1, fav) && !pos.trailActive {
      return false, Close(pos, pos.tp1, TakeProfit);
    }
    return false, Hold(pos);
  }
}
