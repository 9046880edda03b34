/** A paper position under repeated management ticks and its partial take-profit
    (manage_paper_positions and manage_partial_tp_paper in
    core/position_manager.py), and the no-loss lock over whole runs. */
module StopLifecycle {
  import opened Numbers
  import opened ExitManager
  import opened StopEngine
  import opened StopEngineProofs

  datatype Held = Held(pos: Position, row: Row)

  datatype PartialCfg = PartialCfg(run: RunnerCfg, fullClose: bool, fraction: real, minRemain: real, tp2Rr: real)

  datatype Event =
    | Manage(cfg: Cfg, quote: Quote, tp2Rr: real)
    | TakePartial(pcfg: PartialCfg, price: real, atr: real)

  /** The position's TP2, else one at `rr` times its present risk; 0 where there is none. */
  function FallbackTp2(p: Position, rr: real): real {
    var risk := Abs(p.entry - p.sl);
    if p.tp2 > 0.0 then p.tp2
    else if p.entry <= 0.0 || p.sl <= 0.0 || risk <= 0.0 then 0.0
    else Toward(p.side, p.entry, risk * rr)
  }

  /** The management loop stamps a TP2 on a row that has none, and on its position. */
  function Stamped(h: Held, rr: real): Held {
    var tp2 := FallbackTp2(h.pos, rr);
    if h.row.tp2 == 0.0 && tp2 > 0.0 then Held(h.pos.(tp2 := tp2), h.row.(tp2 := tp2)) else h
  }

  function InputOf(h: Held, ev: Event): Input
    requires ev.Manage?
  {
    var s := Stamped(h, ev.tp2Rr);
    Input(ev.cfg, s.pos, ev.quote, s.row)
  }

  /** One management tick: an accepted stop is stored on the 5-decimal grid; an
      exception leaves the stored state as it was. */
  function ManageStep(h: Held, ev: Event): Held
    requires ev.Manage?
  {
    var i := InputOf(h, ev);
    match Managed(i)
    case Raised => h
    case Done(None, row, _) => Held(i.pos, row)
    case Done(Some(s), row, _) => Held(i.pos.(sl := Round5(s)), row)
  }

  /** Partials are off, or the position is too small to split. */
  predicate ClosesWhole(size: real, c: PartialCfg) {
    c.fullClose || (PartialCloseVolume(size, c.fraction, c.minRemain) <= 0.0 && size >= LOT)
  }

  /** Lots closed at TP1. */
  function CloseVolume(size: real, c: PartialCfg): real {
    if ClosesWhole(size, c) then size else PartialCloseVolume(size, c.fraction, c.minRemain)
  }

  /** row.initial_sl or current_sl or entry, before the partial stamps the row. */
  function PartialRisk(h: Held): real {
    if h.row.initialSl.Some? && h.row.initialSl.value != 0.0 then h.row.initialSl.value
    else if h.pos.sl != 0.0 then h.pos.sl else h.pos.entry
  }

  function PartialLock(h: Held, ev: Event): real
    requires ev.TakePartial?
  {
    PostPartialLock(h.pos.entry, PartialRisk(h), h.pos.side, ev.atr, ev.pcfg.run)
  }

  /** TP1 is reached for the first time. */
  predicate AtTp1(h: Held, ev: Event)
    requires ev.TakePartial?
  {
    !h.row.partialDone && TpReached(h.pos.side, ev.price, h.pos.tp1)
  }

  predicate TakesPartial(h: Held, ev: Event)
    requires ev.TakePartial?
  {
    AtTp1(h, ev) && CloseVolume(h.pos.size, ev.pcfg) > 0.0
  }

  /** At TP1 a fallback TP2 is stored even when nothing can be closed. */
  function PartialStep(h: Held, ev: Event): Held
    requires ev.TakePartial?
  {
    var p, tp2 := h.pos, FallbackTp2(h.pos, ev.pcfg.tp2Rr);
    if !AtTp1(h, ev) then h
    else if !TakesPartial(h, ev) then h.(pos := p.(tp2 := if tp2 > 0.0 then tp2 else p.tp2))
    else
      Held(
        p.(size := Round2(p.size - CloseVolume(p.size, ev.pcfg)),
           sl := Round5(Toward(p.side, p.entry, PartialLock(h, ev))),
           tp1 := if ev.pcfg.run.extendToTp2 && tp2 > 0.0 then tp2 else p.tp1, tp2 := tp2),
        h.row.(partialDone := true, breakEven := true,
               initialSl := if h.row.initialSl.None? && p.sl > 0.0 then Some(p.sl) else h.row.initialSl))
  }

  /** A trade recorded at TP1; a whole close is not marked partial. */
  datatype Tp1Trade = Tp1Trade(exit: real, pnl: real, partial: bool)

  function Banked(p: Position, v: real): real { ProfitDistance(p.side, p.entry, p.tp1) * v }

  function Tp1TradeOf(h: Held, ev: Event): Option<Tp1Trade>
    requires ev.TakePartial?
  {
    if !TakesPartial(h, ev) then None
    else
      var p := h.pos;
      Some(Tp1Trade(p.tp1, Round2(Banked(p, CloseVolume(p.size, ev.pcfg))), !ClosesWhole(p.size, ev.pcfg)))
  }

  function Step(h: Held, ev: Event): Held {
    if ev.Manage? then ManageStep(h, ev) else PartialStep(h, ev)
  }

  function Run(h: Held, evs: seq<Event>): Held {
    if evs == [] then h else Step(Run(h, evs[..|evs| - 1]), evs[|evs| - 1])
  }

  // ----- The lock and its conditions ----------------------------------------

  const TICK := 0.00001
  const HALF_TICK := 0.000005

  /** The stop is at entry or better: being stopped out cannot lose. */
  predicate Locked(h: Held) {
    if h.pos.side == Buy then h.pos.sl >= h.pos.entry else 0.0 < h.pos.sl <= h.pos.entry
  }

  /** Entry and stop are grid prices and the row's prices are real prices. */
  predicate WellKept(h: Held) {
    && h.pos.entry > 0.0 && OnGrid(h.pos.entry, GRID) && h.pos.sl >= 0.0 && OnGrid(h.pos.sl, GRID)
    && (h.row.peak.Some? ==> h.row.peak.value >= TICK)
    && (h.row.initialSl.Some? ==> h.row.initialSl.value >= TICK)
  }

  /** Every stop a rule offers is stored as a positive price.  (A SELL stop stored
      at 0 or less reads as "no stop".) */
  predicate StopsStayPositive(i: Input)
    requires !Raises(i)
  {
    AllAbove(Candidates(i), HALF_TICK)
  }

  predicate AllAbove(cs: seq<real>, x: real) { forall c :: c in cs ==> c > x }

  /** Real prices and a lock that does not point into a loss; for a SELL, stops that
      stay positive. */
  predicate Sound(h: Held, ev: Event) {
    match ev
    case Manage(_, q, _) =>
      q.price >= TICK && (h.pos.side == Sell && !Raises(InputOf(h, ev)) ==> StopsStayPositive(InputOf(h, ev)))
    case TakePartial(_, _, _) =>
      0.0 <= PartialLock(h, ev) && (h.pos.side == Sell ==> PartialLock(h, ev) < h.pos.entry - HALF_TICK)
  }

  /** Prices, ATR and configuration of a SELL for which that is so: every distance
      a rule moves the stop into profit leaves it above zero. */
  predicate SellRoom(h: Held, ev: Event) {
    && ev.Manage? && h.pos.side == Sell && ev.quote.price >= TICK
    && var i, top := InputOf(h, ev), h.pos.entry - TICK;
       && BeLock(i) <= top && Be70Dist(i) >= 0.0
       && (TrailDist(i).Some? ==> TrailDist(i).value >= 0.0)
       && i.cfg.time.targetProfit * i.quote.atr <= top && i.cfg.time.targetAtr * i.quote.atr >= 0.0
  }

  // ----- Proof --------------------------------------------------------------

  lemma TickIsOneGridStep()
    ensures 1.0 / GRID == TICK && OnGrid(TICK, GRID)
  {}

  lemma GridPositiveIsTick(x: real)
    requires OnGrid(x, GRID) && x > 0.0
    ensures x >= TICK
  {
    TickIsOneGridStep();
    GridGap(0.0, x, GRID);
  }

  lemma RoundKeepsFloor(lo: real, x: real)
    requires OnGrid(lo, GRID) && lo <= x
    ensures lo <= Round5(x)
  {
    RoundMonotone(lo, x, GRID);
    RoundFixesGrid(lo, GRID);
  }

  lemma Interpolates(a: real, b: real, p: real, lo: real)
    requires a >= lo && b >= lo && 0.0 <= p <= 1.0
    ensures a + (b - a) * p >= lo
  {
    var u, v, w := a - lo, b - lo, 1.0 - p;
    assert u * w >= 0.0 && v * p >= 0.0;
    assert u * w == u - u * p;
    assert (b - a) * p == v * p - u * p;
  }

  lemma SellRiskPositive(h: Held, ev: Event)
    requires WellKept(h) && SellRoom(h, ev)
    ensures var i := InputOf(h, ev); RiskSl(i) >= TICK && Peak(i) >= TICK
  {
    GridPositiveIsTick(h.pos.entry);
    if h.pos.sl > 0.0 { GridPositiveIsTick(h.pos.sl); }
  }

  lemma SellTimeTargetPositive(h: Held, ev: Event)
    requires WellKept(h) && SellRoom(h, ev)
    requires RiskSl(InputOf(h, ev)) >= TICK
    ensures TimeTarget(InputOf(h, ev)) >= TICK
  {
    hide RiskSl, BeLock, Be70Dist, TrailDist, OnGrid;
    GridPositiveIsTick(h.pos.entry);
  }

  lemma SellTimeStopPositive(h: Held, ev: Event)
    requires WellKept(h) && SellRoom(h, ev) && TimeFires(InputOf(h, ev))
    ensures TimeStop(InputOf(h, ev)) >= TICK
  {
    hide RiskSl, TimeTarget, TimeProgress, WellKept;
    var i := InputOf(h, ev);
    SellRiskPositive(h, ev);
    SellTimeTargetPositive(h, ev);
    var r, t, p := RiskSl(i), TimeTarget(i), TimeProgress(i);
    Interpolates(r, t, p, TICK);
    assert TimeStop(i) == r + (t - r) * p;
  }

  /** Room in prices and configuration keeps every offered stop positive. */
  lemma RoomKeepsStopsPositive(h: Held, ev: Event)
    requires WellKept(h) && SellRoom(h, ev) && !Raises(InputOf(h, ev))
    ensures StopsStayPositive(InputOf(h, ev))
  {
    var i := InputOf(h, ev);
    SellRiskPositive(h, ev);
    GridPositiveIsTick(h.pos.entry);
    assert forall c :: c in BeCandidates(i) ==> c >= TICK;
    assert forall c :: c in Be70Candidates(i) ==> c >= TICK;
    assert forall c :: c in TrailCandidates(i) ==> c >= TICK;
    if TimeFires(i) { SellTimeStopPositive(h, ev); }
    assert forall c :: c in TimeCandidates(i) ==> c >= TICK;
  }

  lemma {:induction false} SettleIsACandidate(side: Side, sl: real, cs: seq<real>)
    ensures var s := Settle(side, sl, sl, cs); s == sl || s in cs
  {
    if cs != [] {
      SettleIsACandidate(side, sl, cs[..|cs| - 1]);
    }
  }

  /** A stop the settled value does not improve by 1e-9 is not beyond it on the grid. */
  lemma UnreturnedOnGrid(side: Side, sl: real, s: real, bound: real)
    requires OnGrid(sl, GRID) && OnGrid(bound, GRID) && AsTight(side, s, bound) && AsTight(side, s, sl)
    requires Abs(s - sl) < EPS
    ensures AsTight(side, sl, bound)
  {
    TickIsOneGridStep();
    if side == Buy && sl < bound { GridGap(sl, bound, GRID); }
    if side == Sell && bound < sl { GridGap(bound, sl, GRID); }
  }

  /** Half a grid step rounds to zero, anything above it to a positive price. */
  lemma PositiveOnGrid(x: real)
    ensures Round5(x) > 0.0 <==> x > HALF_TICK
    ensures Round5(x) > 0.0 ==> Round5(x) >= TICK
  {
    var k := RoundInt(x * GRID);
    assert Round5(x) == k as real / GRID;
    assert k >= 1 <==> x * GRID > 0.5;
    if k >= 1 { DivMonotone(1.0, k as real, GRID); } else { DivMonotone(k as real, 0.0, GRID); }
  }

  /** What a tick stores: the settled stop on the grid where it is returned. */
  lemma StoredStop(h: Held, ev: Event)
    requires ev.Manage? && !Raises(InputOf(h, ev))
    ensures var i, h' := InputOf(h, ev), ManageStep(h, ev);
            && h'.pos.side == h.pos.side && h'.pos.entry == h.pos.entry && i.pos.side == h.pos.side
            && i.pos.sl == h.pos.sl && i.pos.entry == h.pos.entry
            && h'.pos.sl == match Returned(h.pos.side, h.pos.sl, Settled(i))
                            case None => h.pos.sl
                            case Some(s) => Round5(s)
  {
    hide Settled, FinalRow, Actions, FallbackTp2, Round5, Returned;
  }

  lemma SettledIsOffered(i: Input)
    requires !Raises(i)
    ensures Settled(i) == i.pos.sl || Settled(i) in Candidates(i)
  {
    hide Candidates;
    SettleIsACandidate(i.pos.side, i.pos.sl, Candidates(i));
  }

  lemma SettledIsTightest(i: Input)
    requires !Raises(i) && (i.pos.side == Buy || i.pos.sl > 0.0)
    ensures AsTight(i.pos.side, Settled(i), i.pos.sl)
    ensures forall c :: c in Candidates(i) ==> AsTight(i.pos.side, Settled(i), c)
  {
    hide Candidates, AsTight;
    SettleIsTightest(i.pos.side, i.pos.sl, Candidates(i));
  }

  /** A stop as tight as entry, stored or left as it is, locks the position. */
  lemma TightStopLocks(side: Side, sl: real, s: real, e: real)
    requires OnGrid(sl, GRID) && OnGrid(e, GRID) && AsTight(side, s, e)
    requires side == Buy || sl > 0.0 ==> AsTight(side, s, sl)
    requires side == Sell ==> s > HALF_TICK
    ensures match Returned(side, sl, s)
            case None => (side == Sell && sl <= 0.0) || AsTight(side, sl, e)
            case Some(r) => AsTight(side, Round5(r), e) && (side == Sell ==> Round5(r) > 0.0)
  {
    hide OnGrid, Round5;
    if Returned(side, sl, s).None? {
      if side == Buy || sl > 0.0 { UnreturnedOnGrid(side, sl, s, e); }
    } else if side == Buy {
      RoundKeepsFloor(e, s);
    } else {
      PositiveOnGrid(s);
      RoundKeepsCeiling(s, e);
    }
  }

  lemma RoundKeepsCeiling(x: real, hi: real)
    requires OnGrid(hi, GRID) && x <= hi
    ensures Round5(x) <= hi
  {
    RoundMonotone(x, hi, GRID);
    RoundFixesGrid(hi, GRID);
  }

  /** After any tick whose settled stop is as tight as entry the position is locked. */
  lemma StoredStopLocks(h: Held, ev: Event)
    requires WellKept(h) && ev.Manage? && Sound(h, ev)
    requires var i := InputOf(h, ev);
      !Raises(i) && AsTight(h.pos.side, Settled(i), h.pos.entry)
      && (h.pos.side == Sell ==> (h.pos.sl > 0.0 || Settled(i) in Candidates(i)))
    ensures Locked(ManageStep(h, ev))
  {
    hide ManageStep, Raises, Settled, Candidates, OnGrid, Round5;
    var i := InputOf(h, ev);
    var s, side, sl, e := Settled(i), h.pos.side, h.pos.sl, h.pos.entry;
    StoredStop(h, ev);
    SettledIsOffered(i);
    if side == Buy || sl > 0.0 { SettledIsTightest(i); }
    if side == Sell && sl > 0.0 { GridPositiveIsTick(sl); }
    hide InputOf;
    TightStopLocks(side, sl, s, e);
    if side == Sell && sl <= 0.0 { NoStopIsReplaced(s); }
  }

  /** A SELL that has no stop gets the one that was settled. */
  lemma NoStopIsReplaced(s: real)
    requires s > HALF_TICK
    ensures Returned(Sell, 0.0, s) == Some(s)
  {}

  /** Armed trailing on a position in profit offers a stop as tight as entry. */
  lemma ArmedTrailReachesEntry(i: Input)
    requires !Raises(i) && TrailArmed(i) && Profit(i) > 0.0
    ensures TrailStop(i) in Candidates(i) && AsTight(i.pos.side, TrailStop(i), i.pos.entry)
  {
    assert TrailCandidates(i) == [TrailStop(i)];
    assert TrailStop(i) in TrailCandidates(i);
  }

  /** The lock is taken: after a tick in profit with trailing armed, the stored
      stop is at entry or better. */
  lemma ArmedTickInProfitLocks(h: Held, ev: Event)
    requires WellKept(h) && ev.Manage? && Sound(h, ev)
    requires var i := InputOf(h, ev); !Raises(i) && TrailArmed(i) && Profit(i) > 0.0
    ensures Locked(ManageStep(h, ev))
  {
    var i := InputOf(h, ev);
    ArmedTrailReachesEntry(i);
    if h.pos.side == Buy || h.pos.sl > 0.0 {
      SettleIsTightest(h.pos.side, h.pos.sl, Candidates(i));
    } else {
      SettleTakesLast(Candidates(i), h.pos.sl);
      assert TimeCandidates(i) == [];
      assert TrailCandidates(i) == [TrailStop(i)];
      var before := BeCandidates(i) + Be70Candidates(i);
      assert Candidates(i) == before + [TrailStop(i)];
    }
    StoredStopLocks(h, ev);
  }

  lemma ManageKeepsLock(h: Held, ev: Event)
    requires WellKept(h) && Locked(h) && ev.Manage? && Sound(h, ev)
    ensures Locked(ManageStep(h, ev))
  {
    var i := InputOf(h, ev);
    if !Raises(i) {
      SettleIsTightest(h.pos.side, h.pos.sl, Candidates(i));
      StoredStopLocks(h, ev);
    }
  }

  /** A partial that locks profit on a SELL keeps a stop exactly when the lock is
      less than half a grid step short of the entry price; a larger lock is stored
      as 0 or less, which reads as no stop. */
  lemma SellPartialLocksExactly(h: Held, ev: Event)
    requires WellKept(h) && ev.TakePartial? && TakesPartial(h, ev) && h.pos.side == Sell && PartialLock(h, ev) >= 0.0
    ensures Locked(PartialStep(h, ev)) <==> PartialLock(h, ev) < h.pos.entry - HALF_TICK
  {
    hide PartialLock, CloseVolume;
    var x := h.pos.entry - PartialLock(h, ev);
    PositiveOnGrid(x);
    RoundMonotone(x, h.pos.entry, GRID);
    RoundFixesGrid(h.pos.entry, GRID);
  }

  lemma PartialKeepsLock(h: Held, ev: Event)
    requires WellKept(h) && Locked(h) && ev.TakePartial? && Sound(h, ev)
    ensures Locked(PartialStep(h, ev))
  {
    hide CloseVolume;
    var e, lock := h.pos.entry, PartialLock(h, ev);
    assert lock >= 0.0;
    if TakesPartial(h, ev) {
      hide PartialLock;
      if h.pos.side == Buy { RoundKeepsFloor(e, e + lock); } else { SellPartialLocksExactly(h, ev); }
    }
  }

  lemma ManageKeepsStopOnGrid(h: Held, ev: Event)
    requires WellKept(h) && Sound(h, ev) && ev.Manage?
    ensures var sl := ManageStep(h, ev).pos.sl; sl >= 0.0 && OnGrid(sl, GRID)
  {
    var i := InputOf(h, ev);
    if !Raises(i) {
      var s, side, sl := Settled(i), h.pos.side, h.pos.sl;
      assert s >= 0.0 by {
        if side == Buy {
          SettleIsTightest(side, sl, Candidates(i));
        } else {
          SettleIsACandidate(side, sl, Candidates(i));
        }
      }
      RoundLandsOnGrid(s, GRID);
      RoundKeepsFloor(0.0, s);
    }
  }

  lemma ManageKeepsRow(h: Held, ev: Event)
    requires WellKept(h) && Sound(h, ev) && ev.Manage?
    ensures var h' := ManageStep(h, ev);
            && h'.pos == h.pos.(sl := h'.pos.sl, tp2 := h'.pos.tp2)
            && (h'.row.peak.Some? ==> h'.row.peak.value >= TICK)
            && (h'.row.initialSl.Some? ==> h'.row.initialSl.value >= TICK)
  {
    hide Candidates, Settled, Tightened, FallbackTp2;
    var i := InputOf(h, ev);
    GridPositiveIsTick(h.pos.entry);
    if h.pos.sl > 0.0 { GridPositiveIsTick(h.pos.sl); }
    if !Raises(i) {
      assert Managed(i).row == FinalRow(i);
      assert FinalRow(i).peak == Some(Peak(i)) && FinalRow(i).initialSl == InitialSl(i);
    }
  }

  /** The same rule by rule, on prices, distances and configuration. */
  predicate SellRulesStayPositive(i: Input)
    requires !Raises(i)
  {
    && (BeFires(i) ==> BeLock(i) < i.pos.entry - HALF_TICK)
    && (Be70Fires(i) ==> Peak(i) + Be70Dist(i) > HALF_TICK)
    && ((TrailArmed(i) && !Clamped(i)) || PartialTrailFires(i) ==> Peak(i) + TrailDist(i).value > HALF_TICK)
    && (TimeFires(i) ==> RiskSl(i) + (TimeTarget(i) - RiskSl(i)) * TimeProgress(i) > HALF_TICK)
  }

  lemma AboveConcat(a: seq<real>, b: seq<real>, x: real)
    ensures AllAbove(a + b, x) <==> AllAbove(a, x) && AllAbove(b, x)
  {
    assert forall c :: c in a + b <==> c in a || c in b;
  }

  lemma AboveOne(c: real, x: real)
    ensures AllAbove([c], x) <==> c > x
  {
    assert c in [c];
  }

  lemma AboveTwo(c: real, d: real, x: real)
    ensures AllAbove([c, d], x) <==> c > x && d > x
  {
    assert c in [c, d] && d in [c, d];
  }

  lemma SellBeAndAdaptive(i: Input)
    requires i.pos.side == Sell && i.pos.entry > HALF_TICK
    ensures AllAbove(BeCandidates(i), HALF_TICK) <==> (BeFires(i) ==> BeLock(i) < i.pos.entry - HALF_TICK)
    ensures AllAbove(Be70Candidates(i), HALF_TICK) <==> (Be70Fires(i) ==> Peak(i) + Be70Dist(i) > HALF_TICK)
  {
    hide BeFires, Be70Fires, BeLock, Peak, Be70Dist, AllAbove;
    AboveNone(HALF_TICK);
    AboveOne(i.pos.entry - BeLock(i), HALF_TICK);
    AboveTwo(i.pos.entry, Peak(i) + Be70Dist(i), HALF_TICK);
  }

  lemma AboveNone(x: real)
    ensures AllAbove([], x)
  {}

  lemma SellTrailAndTime(i: Input)
    requires !Raises(i) && i.pos.side == Sell && i.pos.entry > HALF_TICK
    ensures AllAbove(TrailCandidates(i), HALF_TICK)
       <==> ((TrailArmed(i) && !Clamped(i)) || PartialTrailFires(i) ==> Peak(i) + TrailDist(i).value > HALF_TICK)
    ensures AllAbove(TimeCandidates(i), HALF_TICK) <==> (TimeFires(i) ==> TimeStop(i) > HALF_TICK)
  {
    hide Peak, TrailDist, Clamped, TimeStop, AllAbove;
    AboveNone(HALF_TICK);
    AboveOne(i.pos.entry, HALF_TICK);
    if TrailDist(i).Some? { AboveOne(Peak(i) + TrailDist(i).value, HALF_TICK); }
    if TimeFires(i) { AboveOne(TimeStop(i), HALF_TICK); }
  }

  lemma SellRulesDecide(i: Input)
    requires !Raises(i) && i.pos.side == Sell && i.pos.entry > HALF_TICK
    ensures StopsStayPositive(i) <==> SellRulesStayPositive(i)
  {
    hide BeFires, Be70Fires, BeLock, Peak, Be70Dist, TrailDist, RiskSl, TimeTarget, TimeProgress, Clamped, AllAbove,
      BeCandidates, Be70Candidates, TrailCandidates, TimeCandidates;
    var be, adaptive, trail := BeCandidates(i), Be70Candidates(i), TrailCandidates(i);
    AboveConcat(be, adaptive, HALF_TICK);
    AboveConcat(be + adaptive, trail, HALF_TICK);
    AboveConcat(be + adaptive + trail, TimeCandidates(i), HALF_TICK);
    SellBeAndAdaptive(i);
    SellTrailAndTime(i);
  }

  /** A stop settled at or below half a grid step is stored as no stop. */
  lemma TinyStopIsLost(h: Held, ev: Event)
    requires WellKept(h) && Locked(h) && h.pos.side == Sell && ev.Manage? && !Raises(InputOf(h, ev))
    requires Settled(InputOf(h, ev)) <= HALF_TICK
    ensures !Locked(ManageStep(h, ev))
  {
    hide ManageStep, Raises, Settled, InputOf, OnGrid, Round5;
    var s := Settled(InputOf(h, ev));
    StoredStop(h, ev);
    GridPositiveIsTick(h.pos.sl);
    PositiveOnGrid(s);
  }

  lemma OfferedStopKeepsLockExactly(h: Held, ev: Event)
    requires WellKept(h) && Locked(h) && h.pos.side == Sell && ev.Manage? && ev.quote.price >= TICK
    requires !Raises(InputOf(h, ev))
    ensures Locked(ManageStep(h, ev)) <==> StopsStayPositive(InputOf(h, ev))
  {
    hide ManageStep, Raises, Settled, Candidates, OnGrid;
    var i := InputOf(h, ev);
    if StopsStayPositive(i) {
      ManageKeepsLock(h, ev);
    } else {
      var c :| c in Candidates(i) && c <= HALF_TICK;
      StoredStop(h, ev);
      SettledIsTightest(i);
      TinyStopIsLost(h, ev);
    }
  }

  /** A tick keeps a SELL's lock exactly when every rule that fires offers a stop
      above half a grid step. */
  lemma SellTickKeepsLockExactly(h: Held, ev: Event)
    requires WellKept(h) && Locked(h) && h.pos.side == Sell && ev.Manage? && ev.quote.price >= TICK
    requires !Raises(InputOf(h, ev))
    ensures Locked(ManageStep(h, ev)) <==> SellRulesStayPositive(InputOf(h, ev))
  {
    hide Locked, ManageStep, StopsStayPositive, SellRulesStayPositive, Raises, FallbackTp2;
    OfferedStopKeepsLockExactly(h, ev);
    GridPositiveIsTick(h.pos.entry);
    SellRulesDecide(InputOf(h, ev));
  }

  lemma PartialKeepsWellKept(h: Held, ev: Event)
    requires WellKept(h) && Sound(h, ev) && ev.TakePartial?
    ensures WellKept(PartialStep(h, ev))
  {
    var p, lock := h.pos, PartialLock(h, ev);
    assert lock >= 0.0;
    var s := Toward(p.side, p.entry, lock);
    RoundLandsOnGrid(s, GRID);
    RoundKeepsFloor(0.0, s);
    if p.sl > 0.0 { GridPositiveIsTick(p.sl); }
  }

  lemma StepKeepsWellKept(h: Held, ev: Event)
    requires WellKept(h) && Sound(h, ev)
    ensures WellKept(Step(h, ev)) && Step(h, ev).pos.side == h.pos.side && Step(h, ev).pos.entry == h.pos.entry
  {
    if ev.Manage? {
      ManageKeepsStopOnGrid(h, ev);
      ManageKeepsRow(h, ev);
    } else {
      PartialKeepsWellKept(h, ev);
    }
  }

  ghost predicate SoundRun(h: Held, evs: seq<Event>) {
    forall n :: 0 <= n < |evs| ==> Sound(Run(h, evs[..n]), evs[n])
  }

  /** A locked position stays locked through every later tick and partial. */
  lemma {:induction false} LockLastsForever(h: Held, evs: seq<Event>)
    requires WellKept(h) && Locked(h) && SoundRun(h, evs)
    ensures WellKept(Run(h, evs)) && Locked(Run(h, evs))
  {
    if evs != [] {
      var n := |evs| - 1;
      assert forall k :: 0 <= k <= n ==> evs[..n][..k] == evs[..k];
      LockLastsForever(h, evs[..n]);
      var g, ev := Run(h, evs[..n]), evs[n];
      assert Sound(g, ev);
      StepKeepsWellKept(g, ev);
      if ev.Manage? { ManageKeepsLock(g, ev); } else { PartialKeepsLock(g, ev); }
    }
  }

  /** No-loss lock over whole runs: one tick in profit with trailing armed, and
      from then on no sequence of ticks and partial take-profits puts the stop
      back on the losing side of entry. */
  lemma NoLossLock(h: Held, ev: Event, evs: seq<Event>)
    requires WellKept(h) && ev.Manage? && Sound(h, ev)
    requires var i := InputOf(h, ev); !Raises(i) && TrailArmed(i) && Profit(i) > 0.0
    requires SoundRun(ManageStep(h, ev), evs)
    ensures Locked(Run(ManageStep(h, ev), evs))
  {
    ArmedTickInProfitLocks(h, ev);
    StepKeepsWellKept(h, ev);
    LockLastsForever(ManageStep(h, ev), evs);
  }

  // ----- The premises can be met ----------------------------------------------

  /** Trailing one ATR behind the peak, armed one ATR in profit; nothing else on. */
  const TRAIL_ONLY: Cfg :=
    var oneAtr, never := Trigger(None, None, 1.0), DeferCfg(false, 0.0, false, None);
    Cfg(BreakEvenCfg(false, 0.0, oneAtr, None, None, 0.0, 0.0), AdaptiveCfg(false, 0.0, 0.0),
        TrailCfg(true, TrailSpec(None, None, 1.0), oneAtr, never), TimeCfg(false, 0.0, 0.0, false, 0.0, 0.0),
        RunnerCfg(0.35, 0.15, 0.65, true), false)

  /** A position two points in profit from 100 with its stop one point behind. */
  function InProfit(side: Side): (Held, Event) {
    (Held(Position(side, 100.0, if side == Buy then 99.0 else 101.0, 0.0, 0.0, 1.0), FRESH_ROW),
     Manage(TRAIL_ONLY, Quote(if side == Buy then 102.0 else 98.0, 1.0, None, None, 0.0), 2.5))
  }

  lemma InProfitOffers(side: Side)
    ensures var (h, ev) := InProfit(side);
            var i, s := InputOf(h, ev), if side == Buy then 101.0 else 99.0;
            && !Raises(i) && TrailArmed(i) && Profit(i) > 0.0 && TrailStop(i) == s
            && BeCandidates(i) == Be70Candidates(i) == TimeCandidates(i) == []
  {
    var (h, ev) := InProfit(side);
    var i := InputOf(h, ev);
    assert !Be70Fires(i) && !BeFires(i) && !TimeFires(i);
    assert TrailArmed(i) && TrailDist(i) == Some(1.0) && !Clamped(i);
  }

  lemma OnlyTrailSettles(i: Input)
    requires !Raises(i) && TrailArmed(i) && BeCandidates(i) == Be70Candidates(i) == TimeCandidates(i) == []
    requires Replaces(i.pos.side, i.pos.sl, i.pos.sl, TrailStop(i))
    ensures Candidates(i) == [TrailStop(i)] && Settled(i) == TrailStop(i)
  {
    hide BeCandidates, Be70Candidates, TimeCandidates, Settle;
    var s := TrailStop(i);
    assert TrailCandidates(i) == [s];
    assert Candidates(i) == [s];
    SettleSnoc(i.pos.side, i.pos.sl, [], s);
    SettleNothing(i.pos.side, i.pos.sl);
    assert [] + [s] == [s];
  }

  lemma SettleNothing(side: Side, sl: real)
    ensures Settle(side, sl, sl, []) == sl
  {}

  lemma InProfitIsWellKept(side: Side)
    ensures var (h, ev) := InProfit(side);
            WellKept(h) && !Locked(h) && ev.quote.price >= TICK && h.pos.side == side
            && h.pos.sl == (if side == Buy then 99.0 else 101.0) && h.pos.entry == 100.0
  {}

  /** Both sides reach the lock: the stop lands one point into profit. */
  lemma LockIsReached(side: Side)
    ensures var (h, ev) := InProfit(side);
            && WellKept(h) && Sound(h, ev) && !Locked(h)
            && ManageStep(h, ev).pos.sl == (if side == Buy then 101.0 else 99.0) && Locked(ManageStep(h, ev))
  {
    hide Settled, Candidates, TrailStop, TrailArmed, Raises, Profit, BeCandidates, Be70Candidates, TimeCandidates,
      ManageStep, WellKept, InputOf, OnGrid, Locked;
    var (h, ev) := InProfit(side);
    var i, s := InputOf(h, ev), if side == Buy then 101.0 else 99.0;
    InProfitIsWellKept(side);
    InProfitOffers(side);
    StoredStop(h, ev);
    OnlyTrailSettles(i);
    assert StopsStayPositive(i);
    ArmedTickInProfitLocks(h, ev);
    assert OnGrid(s, GRID) by { WholeIsOnGrid(if side == Buy then 101 else 99); }
    RoundFixesGrid(s, GRID);
  }

  lemma WholeIsOnGrid(k: int)
    ensures OnGrid(k as real, GRID)
  {
    assert k as real * GRID == (k * 100_000) as real;
  }

  // ----- The lock can be lost by a SELL ----------------------------------------

  /** Sold at 1.0 and locked at 0.99. */
  function LockedSell(initialSl: real): Held {
    Held(Position(Sell, 1.0, 0.99, 0.5, 0.0, 1.0), FRESH_ROW.(breakEven := true, initialSl := Some(initialSl)))
  }

  /** A partial that locks 0.35 of a risk of 3 stores -0.05, which reads as no stop. */
  lemma SellPartialLosesLock()
    ensures var h := LockedSell(4.0);
            var ev := TakePartial(PartialCfg(RunnerCfg(0.35, 0.15, 0.65, true), false, 0.5, 0.01, 2.5), 0.4, 0.1);
            WellKept(h) && Locked(h) && TakesPartial(h, ev) && PartialStep(h, ev).pos.sl <= 0.0
  {
    var h := LockedSell(4.0);
    var ev := TakePartial(PartialCfg(RunnerCfg(0.35, 0.15, 0.65, true), false, 0.5, 0.01, 2.5), 0.4, 0.1);
    assert PartialLock(h, ev) == 1.05;
    assert CloseVolume(1.0, ev.pcfg) == 0.5 by { assert LotSteps(0.5, LOT) == 50; }
    PositiveOnGrid(-0.05);
  }

  /** A break-even lock of one ATR of 2 offers -1: the tick loses the lock. */
  lemma SellTickLosesLock()
    ensures var h, ev := LockedSell(1.5), Manage(LOCK_THEN_TRAIL, Quote(0.9, 2.0, None, None, 0.0), 2.5);
            WellKept(h) && Locked(h) && !Raises(InputOf(h, ev)) && !Locked(ManageStep(h, ev))
  {
    var h, ev := LockedSell(1.5), Manage(LOCK_THEN_TRAIL, Quote(0.9, 2.0, None, None, 0.0), 2.5);
    var i := InputOf(h, ev);
    assert BeFires(i) && BeLock(i) == 2.0 && !SellRulesStayPositive(i);
    SellTickKeepsLockExactly(h, ev);
  }
}
