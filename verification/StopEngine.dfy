/** Break-even, trailing and time-decay stop management of one open position
    (compute_managed_sl in core/position_manager.py).

    `Managed` states the outcome declaratively: which rules fire, the candidate
    stop each one offers, and the tightest of them.  `ComputeManagedSl` is the
    sequential cascade, which rewrites a stop and the position's latched row
    rule by rule; it is proved to produce the declared outcome. */
module StopEngine {
  import opened Numbers
  import opened ExitManager

  // ----- Configuration (per-symbol, profile and live overrides resolved) -----

  datatype BreakEvenCfg = BreakEvenCfg(
    enabled: bool, triggerPct: real, trigger: Trigger,
    lockPoints: Option<real>, lockUsd: Option<real>, lockAtrMult: real, minRWin: real)

  datatype AdaptiveCfg = AdaptiveCfg(enabled: bool, triggerPct: real, trailAtr: real)

  datatype TrailCfg = TrailCfg(enabled: bool, spec: TrailSpec, activation: Trigger, defer: DeferCfg)

  datatype TimeCfg = TimeCfg(
    enabled: bool, start: real, window: real, targetBe: bool, targetAtr: real, targetProfit: real)

  datatype Cfg = Cfg(
    be: BreakEvenCfg, adaptive: AdaptiveCfg, trail: TrailCfg, time: TimeCfg, run: RunnerCfg,
    distanceFirst: bool)

  /** Distance-first: configured broker points silence the USD trigger. */
  function Effective(t: Trigger, distanceFirst: bool): Trigger {
    if distanceFirst && t.points.Some? then t.(usd := None) else t
  }

  // ----- State --------------------------------------------------------------

  /** sl, tp1, tp2 of 0 mean "none", as in the position records. */
  datatype Position = Position(side: Side, entry: real, sl: real, tp1: real, tp2: real, size: real)

  /** The position's row in position_management.json. */
  datatype Row = Row(
    initialSl: Option<real>, breakEven: bool, trailing: bool, partialDone: bool, bePctFired: bool,
    peak: Option<real>, worst: Option<real>, mfeR: Option<real>, maeR: Option<real>,
    trailDistance: Option<real>, tp1: real, tp2: real)

  const FRESH_ROW := Row(None, false, false, false, false, None, None, None, None, None, 0.0, 0.0)

  datatype Quote = Quote(price: real, atr: real, point: Option<real>, profitUsd: Option<real>, age: real)

  /** Everything one call of compute_managed_sl reads. */
  datatype Input = Input(cfg: Cfg, pos: Position, quote: Quote, row: Row)

  datatype Action = BreakEven | Be70Trail | Trail | TrailAfterPartial | TimeTighten

  datatype Outcome = Raised | Done(sl: Option<real>, row: Row, actions: seq<Action>)

  // ----- Inputs shared by the rules -----------------------------------------

  function Peak(i: Input): real {
    var p := if i.row.peak.Some? then i.row.peak.value else i.pos.entry;
    if i.pos.side == Buy then Max(p, i.quote.price) else Min(p, i.quote.price)
  }

  function Worst(i: Input): real {
    var w := if i.row.worst.Some? then i.row.worst.value else i.pos.entry;
    if i.pos.side == Buy then Min(w, i.quote.price) else Max(w, i.quote.price)
  }

  function InitialSl(i: Input): Option<real> {
    if i.row.initialSl.None? && i.pos.sl > 0.0 then Some(i.pos.sl) else i.row.initialSl
  }

  /** row.initial_sl or current_sl or entry. */
  function RiskSl(i: Input): real {
    var s := InitialSl(i);
    if s.Some? && s.value != 0.0 then s.value else if i.pos.sl != 0.0 then i.pos.sl else i.pos.entry
  }

  function RiskDist(i: Input): real { Abs(i.pos.entry - RiskSl(i)) }

  function Profit(i: Input): real { ProfitDistance(i.pos.side, i.pos.entry, i.quote.price) }

  function InR(i: Input, d: real, prior: Option<real>): Option<real> {
    if RiskDist(i) > 0.0 then Some(Round(d / RiskDist(i), 10_000.0)) else prior
  }

  /** The row after the unconditional MAE/MFE tracking. */
  function Tracked(i: Input): Row {
    i.row.(
      initialSl := InitialSl(i), peak := Some(Peak(i)), worst := Some(Worst(i)),
      mfeR := InR(i, ProfitDistance(i.pos.side, i.pos.entry, Peak(i)), i.row.mfeR),
      maeR := InR(i, -ProfitDistance(i.pos.side, i.pos.entry, Worst(i)), i.row.maeR))
  }

  // ----- When each rule fires, and the stop it offers -----------------------

  predicate BePctHit(i: Input) {
    var e, p := i.pos.entry, i.quote.price;
    i.cfg.be.triggerPct > 0.0 && e > 0.0 && p > 0.0 && Profit(i) / e >= i.cfg.be.triggerPct
  }

  function BeTrigger(i: Input): Trigger { Effective(i.cfg.be.trigger, i.cfg.distanceFirst) }

  predicate BeHit(i: Input) {
    i.row.breakEven || BePctHit(i)
    || TriggerMet(i.quote.profitUsd, Profit(i), BeTrigger(i), i.quote.atr, i.quote.point)
  }

  function BeLock(i: Input): real {
    var pts := PointsToPrice(i.cfg.be.lockPoints, i.quote.point);
    if pts.Some? then pts.value
    else if UsdMet(i.quote.profitUsd, BeTrigger(i).usd) && i.cfg.be.lockUsd.Some? then Max(0.0, i.cfg.be.lockUsd.value)
    else if BePctHit(i) then 0.0
    else i.quote.atr * i.cfg.be.lockAtrMult
  }

  predicate BelowWinFloor(i: Input) {
    i.cfg.be.minRWin > 0.0 && RiskDist(i) > 0.0 && BeLock(i) < i.cfg.be.minRWin * RiskDist(i)
    && Profit(i) > 0.0 && !BePctHit(i)
  }

  predicate BeFires(i: Input) { i.cfg.be.enabled && BeHit(i) && !BelowWinFloor(i) }

  function BeStop(i: Input): real { Toward(i.pos.side, i.pos.entry, BeLock(i)) }

  /** `c` replaces `cur`: it is tighter, or a SELL had no stop when the call began. */
  predicate Replaces(side: Side, sl: real, cur: real, c: real) {
    if side == Buy then c > cur else sl <= 0.0 || c < cur
  }

  predicate BeMoves(i: Input) { BeFires(i) && Replaces(i.pos.side, i.pos.sl, i.pos.sl, BeStop(i)) }

  function Tp1(i: Input): real { if i.pos.tp1 != 0.0 then i.pos.tp1 else i.row.tp1 }

  predicate Be70Fires(i: Input) {
    i.cfg.adaptive.enabled && !i.row.breakEven && !BeMoves(i)
    && Tp1(i) > 0.0 && Tp1(i) != i.pos.entry
    && Profit(i) / Abs(Tp1(i) - i.pos.entry) >= i.cfg.adaptive.triggerPct
  }

  function Be70Dist(i: Input): real { i.quote.atr * i.cfg.adaptive.trailAtr }

  function Tightened(c: Cfg, atr: real, point: Option<real>, partialDone: bool): Option<real> {
    match TrailDistance(c.trail.spec, atr, point)
    case None => None
    case Some(d) => Some(d * TightenMultiplier(partialDone, c.run))
  }

  function TrailDist(i: Input): Option<real> {
    Tightened(i.cfg, i.quote.atr, i.quote.point, i.row.partialDone)
  }

  predicate TrailArmed(i: Input) {
    i.cfg.trail.enabled
    && TrailActivationAllowed(
         i.row.trailing || Be70Fires(i), i.row.partialDone,
         ProfitRr(i.pos.side, i.pos.entry, RiskSl(i), i.quote.price), i.quote.profitUsd, Profit(i),
         Effective(i.cfg.trail.activation, i.cfg.distanceFirst), i.cfg.trail.defer, i.quote.atr, i.quote.point)
  }

  /** Trailing in profit never offers a stop on the losing side of entry. */
  predicate Clamped(i: Input)
    requires TrailDist(i).Some?
  {
    Profit(i) > 0.0
    && ProfitDistance(i.pos.side, i.pos.entry, Toward(i.pos.side, Peak(i), -TrailDist(i).value)) < 0.0
  }

  function TrailStop(i: Input): real
    requires TrailDist(i).Some?
  {
    if Clamped(i) then i.pos.entry else Toward(i.pos.side, Peak(i), -TrailDist(i).value)
  }

  predicate PartialTrailFires(i: Input) {
    i.cfg.trail.enabled && i.row.partialDone && !(i.row.trailing || Be70Fires(i) || TrailArmed(i))
  }

  predicate TimeFires(i: Input) {
    var t := i.cfg.time;
    t.enabled && RiskSl(i) != i.pos.entry && i.quote.age > t.start && t.window > 0.0
    && (i.pos.side == Buy || i.pos.sl > 0.0)
  }

  function TimeTarget(i: Input): real {
    var t, e := i.cfg.time, i.pos.entry;
    if t.targetProfit > 0.0 then Toward(i.pos.side, e, t.targetProfit * i.quote.atr)
    else if t.targetBe then e
    else if i.pos.side == Buy then Max(RiskSl(i), e - t.targetAtr * i.quote.atr)
    else Min(RiskSl(i), e + t.targetAtr * i.quote.atr)
  }

  function TimeProgress(i: Input): (p: real)
    requires i.cfg.time.window > 0.0
    ensures 0.0 <= p <= 1.0
  {
    Min(1.0, Max(0.0, (i.quote.age - i.cfg.time.start) / i.cfg.time.window))
  }

  function TimeStop(i: Input): real
    requires i.cfg.time.window > 0.0
  {
    RiskSl(i) + (TimeTarget(i) - RiskSl(i)) * TimeProgress(i)
  }

  // ----- The declared outcome -----------------------------------------------

  predicate Raises(i: Input) { i.cfg.trail.enabled && TrailDist(i).None? }

  function BeCandidates(i: Input): seq<real> {
    if BeFires(i) then [BeStop(i)] else []
  }

  function Be70Candidates(i: Input): seq<real> {
    if Be70Fires(i) then [i.pos.entry, Toward(i.pos.side, Peak(i), -Be70Dist(i))] else []
  }

  function TrailCandidates(i: Input): seq<real>
    requires !Raises(i)
  {
    if TrailArmed(i) then [TrailStop(i)]
    else if PartialTrailFires(i) then [Toward(i.pos.side, Peak(i), -TrailDist(i).value)]
    else []
  }

  function TimeCandidates(i: Input): seq<real> {
    if TimeFires(i) then [TimeStop(i)] else []
  }

  function Candidates(i: Input): seq<real>
    requires !Raises(i)
  {
    BeCandidates(i) + Be70Candidates(i) + TrailCandidates(i) + TimeCandidates(i)
  }

  /** Offer the candidates in turn to a stop that stands at `cur`. */
  function Settle(side: Side, sl: real, cur: real, cs: seq<real>): real {
    if cs == [] then cur
    else
      var prev := Settle(side, sl, cur, cs[..|cs| - 1]);
      if Replaces(side, sl, prev, cs[|cs| - 1]) then cs[|cs| - 1] else prev
  }

  function Settled(i: Input): real
    requires !Raises(i)
  {
    Settle(i.pos.side, i.pos.sl, i.pos.sl, Candidates(i))
  }

  const EPS := 0.000000001

  /** What is returned for a settled stop: None unless it improves by 1e-9. */
  function Returned(side: Side, sl: real, s: real): Option<real> {
    if Abs(s - sl) < EPS || (side == Buy && s <= sl) || (side == Sell && sl > 0.0 && s >= sl) then None
    else Some(s)
  }

  function FinalRow(i: Input): Row
    requires !Raises(i)
  {
    var armed, ptp := TrailArmed(i), PartialTrailFires(i);
    Tracked(i).(
      breakEven := i.row.breakEven || BeMoves(i) || Be70Fires(i) || (armed && Clamped(i)),
      bePctFired := i.row.bePctFired || (i.cfg.be.enabled && BePctHit(i)),
      trailing := i.row.trailing || Be70Fires(i) || armed || ptp,
      trailDistance :=
        if armed || ptp then Some(Round(TrailDist(i).value, 100_000_000.0))
        else if Be70Fires(i) then Some(Round(Be70Dist(i), 100_000_000.0))
        else i.row.trailDistance)
  }

  /** The stop that stands when the trail block starts. */
  function BeforeTrail(i: Input): real {
    Settle(i.pos.side, i.pos.sl, i.pos.sl, BeCandidates(i) + Be70Candidates(i))
  }

  function BeforeTime(i: Input): real
    requires !Raises(i)
  {
    Settle(i.pos.side, i.pos.sl, i.pos.sl, BeCandidates(i) + Be70Candidates(i) + TrailCandidates(i))
  }

  function BeActions(i: Input): seq<Action> { if BeMoves(i) then [BreakEven] else [] }

  function Be70Actions(i: Input): seq<Action> { if Be70Fires(i) then [Be70Trail] else [] }

  function TrailActions(i: Input): seq<Action>
    requires !Raises(i)
  {
    if TrailArmed(i) then
      (if Clamped(i) && !(i.row.breakEven || BeMoves(i) || Be70Fires(i)) then [BreakEven] else []) + [Trail]
    else if PartialTrailFires(i) && i.pos.side == Sell
            && Replaces(Sell, i.pos.sl, BeforeTrail(i), TrailCandidates(i)[0]) then [TrailAfterPartial]
    else []
  }

  function TimeActions(i: Input): seq<Action>
    requires !Raises(i)
  {
    if TimeFires(i) && Replaces(i.pos.side, i.pos.sl, BeforeTime(i), TimeStop(i)) then [TimeTighten] else []
  }

  function Actions(i: Input): seq<Action>
    requires !Raises(i)
  {
    BeActions(i) + Be70Actions(i) + TrailActions(i) + TimeActions(i)
  }

  function Managed(i: Input): Outcome {
    if Raises(i) then Raised
    else Done(Returned(i.pos.side, i.pos.sl, Settled(i)), FinalRow(i), Actions(i))
  }

  // ----- The sequential cascade ---------------------------------------------

  lemma SettleSnoc(side: Side, sl: real, cs: seq<real>, c: real)
    ensures Settle(side, sl, sl, cs + [c])
         == if Replaces(side, sl, Settle(side, sl, sl, cs), c) then c else Settle(side, sl, sl, cs)
  {
    assert (cs + [c])[..|cs|] == cs;
  }

  lemma SettleTwo(side: Side, sl: real, cs: seq<real>, c: real, d: real)
    ensures var s := Settle(side, sl, sl, cs);
            var s' := if Replaces(side, sl, s, c) then c else s;
            Settle(side, sl, sl, cs + [c, d]) == if Replaces(side, sl, s', d) then d else s'
  {
    SettleSnoc(side, sl, cs, c);
    SettleSnoc(side, sl, cs + [c], d);
    assert cs + [c, d] == cs + [c] + [d];
  }

  /** Break-even: move the stop to the lock if that tightens it. */
  method BreakEvenRule(i: Input, row0: Row) returns (newSl: real, row: Row, actions: seq<Action>)
    requires row0 == Tracked(i)
    ensures newSl == Settle(i.pos.side, i.pos.sl, i.pos.sl, BeCandidates(i))
    ensures row == row0.(
      breakEven := i.row.breakEven || BeMoves(i), bePctFired := i.row.bePctFired || (i.cfg.be.enabled && BePctHit(i)))
    ensures actions == BeActions(i)
  {
    newSl, row, actions := i.pos.sl, row0, [];
    SettleSnoc(i.pos.side, i.pos.sl, [], BeStop(i));
    if i.cfg.be.enabled && BeHit(i) {
      var lock := BeLock(i);
      if BePctHit(i) && !row.bePctFired {
        row := row.(bePctFired := true);
      }
      if !BelowWinFloor(i) {
        var beSl := Toward(i.pos.side, i.pos.entry, lock);
        if Replaces(i.pos.side, i.pos.sl, newSl, beSl) {
          newSl := beSl;
          row := row.(breakEven := true);
          actions := actions + [BreakEven];
        }
      }
    }
  }

  /** 70% of the way to TP1: move to entry and arm the runner's trail. */
  method Be70Rule(i: Input, newSl0: real, row0: Row, actions0: seq<Action>)
    returns (newSl: real, row: Row, actions: seq<Action>)
    requires newSl0 == Settle(i.pos.side, i.pos.sl, i.pos.sl, BeCandidates(i))
    requires row0.breakEven == (i.row.breakEven || BeMoves(i)) && row0.peak == Some(Peak(i))
    requires row0.tp1 == i.row.tp1
    ensures newSl == BeforeTrail(i)
    ensures row == if Be70Fires(i)
                   then row0.(trailing := true, breakEven := true,
                              trailDistance := Some(Round(Be70Dist(i), 100_000_000.0)))
                   else row0
    ensures actions == actions0 + Be70Actions(i)
  {
    newSl, row, actions := newSl0, row0, actions0;
    var side, entry, sl := i.pos.side, i.pos.entry, i.pos.sl;
    assert BeCandidates(i) + [] == BeCandidates(i);
    if i.cfg.adaptive.enabled && !row.breakEven {
      var tp1 := if i.pos.tp1 != 0.0 then i.pos.tp1 else row.tp1;
      if tp1 > 0.0 && entry != tp1 {
        var progress := Profit(i) / Abs(tp1 - entry);
        if progress >= i.cfg.adaptive.triggerPct {
          var dist := Be70Dist(i);
          row := row.(trailing := true, trailDistance := Some(Round(dist, 100_000_000.0)));
          if Replaces(side, sl, newSl, entry) { newSl := entry; }
          row := row.(breakEven := true);
          var tsl := Toward(side, row.peak.value, -dist);
          if Replaces(side, sl, newSl, tsl) { newSl := tsl; }
          actions := actions + [Be70Trail];
          SettleTwo(side, sl, BeCandidates(i), entry, tsl);
        }
      }
    }
  }

  /** The row, declaratively, once break-even and the 70% rule have run. */
  function RowBeforeTrail(i: Input): Row {
    Tracked(i).(
      breakEven := i.row.breakEven || BeMoves(i) || Be70Fires(i),
      bePctFired := i.row.bePctFired || (i.cfg.be.enabled && BePctHit(i)),
      trailing := i.row.trailing || Be70Fires(i),
      trailDistance := if Be70Fires(i) then Some(Round(Be70Dist(i), 100_000_000.0)) else i.row.trailDistance)
  }

  /** Trailing, clamped at entry while the position is in profit. */
  method ArmedTrail(i: Input, dist: real, newSl0: real, row0: Row, actions0: seq<Action>)
    returns (newSl: real, row: Row, actions: seq<Action>)
    requires TrailDist(i) == Some(dist) && row0.peak == Some(Peak(i))
    ensures newSl == if Replaces(i.pos.side, i.pos.sl, newSl0, TrailStop(i)) then TrailStop(i) else newSl0
    ensures row == row0.(trailing := true, trailDistance := Some(Round(dist, 100_000_000.0)),
                         breakEven := row0.breakEven || Clamped(i))
    ensures actions == actions0 + (if Clamped(i) && !row0.breakEven then [BreakEven] else []) + [Trail]
  {
    newSl, row, actions := newSl0, row0, actions0;
    var side, entry := i.pos.side, i.pos.entry;
    row := row.(trailing := true, trailDistance := Some(Round(dist, 100_000_000.0)));
    var trailSl, clamped := Toward(side, row.peak.value, -dist), false;
    if Profit(i) > 0.0 && ProfitDistance(side, entry, trailSl) < 0.0 {
      trailSl, clamped := entry, true;
    }
    if Replaces(side, i.pos.sl, newSl, trailSl) { newSl := trailSl; }
    if clamped && !row.breakEven {
      row := row.(breakEven := true);
      actions := actions + [BreakEven];
    }
    actions := actions + [Trail];
  }

  /** The forced trail of a runner whose trailing is not armed. */
  method RunnerTrail(i: Input, dist: real, newSl0: real, row0: Row, actions0: seq<Action>)
    returns (newSl: real, row: Row, actions: seq<Action>)
    requires row0.peak == Some(Peak(i))
    ensures var c := Toward(i.pos.side, Peak(i), -dist);
            var moves := Replaces(i.pos.side, i.pos.sl, newSl0, c);
            newSl == (if moves then c else newSl0)
            && actions == actions0 + if moves && i.pos.side == Sell then [TrailAfterPartial] else []
    ensures row == row0.(trailing := true, trailDistance := Some(Round(dist, 100_000_000.0)))
  {
    newSl, row, actions := newSl0, row0, actions0;
    row := row.(trailing := true, trailDistance := Some(Round(dist, 100_000_000.0)));
    var ptpSl := Toward(i.pos.side, row.peak.value, -dist);
    if Replaces(i.pos.side, i.pos.sl, newSl, ptpSl) {
      newSl := ptpSl;
      if i.pos.side == Sell { actions := actions + [TrailAfterPartial]; }
    }
  }

  lemma TimeBlockSettles(i: Input)
    requires !Raises(i)
    ensures Settled(i) == if TimeFires(i) && Replaces(i.pos.side, i.pos.sl, BeforeTime(i), TimeStop(i)) then TimeStop(i)
                          else BeforeTime(i)
  {
    hide TimeStop, BeCandidates, Be70Candidates, TrailCandidates, Raises, Settle;
    var before := BeCandidates(i) + Be70Candidates(i) + TrailCandidates(i);
    assert before + [] == before;
    if TimeFires(i) { SettleSnoc(i.pos.side, i.pos.sl, before, TimeStop(i)); }
  }

  /** Time decay: pull the stop from the initial risk towards its target. */
  method TimeRule(i: Input, newSl0: real, actions0: seq<Action>)
    returns (newSl: real, actions: seq<Action>)
    requires !Raises(i) && newSl0 == BeforeTime(i)
    ensures newSl == Settled(i)
    ensures actions == actions0 + TimeActions(i)
  {
    hide Settled, BeforeTime, TimeStop, RiskSl, Raises;
    newSl, actions := newSl0, actions0;
    TimeBlockSettles(i);
    var t := i.cfg.time;
    if t.enabled && RiskSl(i) != i.pos.entry && i.quote.age > t.start && t.window > 0.0 {
      var floor := TimeStop(i);
      if i.pos.side == Buy && newSl < floor {
        newSl, actions := floor, actions + [TimeTighten];
      } else if i.pos.side == Sell && i.pos.sl > 0.0 && newSl > floor {
        newSl, actions := floor, actions + [TimeTighten];
      }
    }
  }

  lemma TrailBlockSettles(i: Input)
    requires !Raises(i)
    ensures !TrailArmed(i) && !PartialTrailFires(i) ==> BeforeTime(i) == BeforeTrail(i)
    ensures TrailArmed(i) || PartialTrailFires(i) ==>
      var c := TrailCandidates(i)[0];
      BeforeTime(i) == if Replaces(i.pos.side, i.pos.sl, BeforeTrail(i), c) then c else BeforeTrail(i)
  {
    var before, cs := BeCandidates(i) + Be70Candidates(i), TrailCandidates(i);
    if cs == [] {
      assert before + cs == before;
    } else {
      SettleSnoc(i.pos.side, i.pos.sl, before, cs[0]);
      assert cs == [cs[0]];
    }
  }

  /** The trail block: arm and trail, or force the runner's trail. */
  method TrailRule(i: Input, newSl0: real, row0: Row, actions0: seq<Action>)
    returns (newSl: real, row: Row, actions: seq<Action>)
    requires !Raises(i) && newSl0 == BeforeTrail(i) && row0 == RowBeforeTrail(i)
    ensures newSl == BeforeTime(i) && row == FinalRow(i)
    ensures actions == actions0 + TrailActions(i)
  {
    hide Tightened, Round, BeforeTrail, BeforeTime;
    newSl, row, actions := newSl0, row0, actions0;
    TrailBlockSettles(i);
    if TrailArmed(i) {
      newSl, row, actions := ArmedTrail(i, TrailDist(i).value, newSl, row, actions);
    } else if row.partialDone && !row.trailing && i.cfg.trail.enabled {
      newSl, row, actions := RunnerTrail(i, TrailDist(i).value, newSl, row, actions);
    }
  }

  method ComputeManagedSl(i: Input) returns (out: Outcome)
    ensures out == Managed(i)
  {
    var newSl, row, actions := BreakEvenRule(i, Tracked(i));
    newSl, row, actions := Be70Rule(i, newSl, row, actions);
    assert row == RowBeforeTrail(i);
    if i.cfg.trail.enabled && TrailDist(i).None? {
      return Raised;
    }
    newSl, row, actions := TrailRule(i, newSl, row, actions);
    newSl, actions := TimeRule(i, newSl, actions);
    return Done(Returned(i.pos.side, i.pos.sl, newSl), row, actions);
  }
}
