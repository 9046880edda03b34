/** What a tick and a partial take-profit store on a paper position, and what whole runs
    of them leave on its row, on prices, distances and configured numbers alone. */
module LifecycleLaws {
  import opened Numbers
  import opened ExitManager
  import opened StopEngine
  import opened StopLifecycle
  import opened TriggerLaws

  // ----- The second target ------------------------------------------------------

  /** The position's TP2; else rr times the distance from entry to a stop that is set;
      else none. */
  predicate IsSecondTarget(p: Position, rr: real, tp2: real) {
    if p.tp2 > 0.0 then tp2 == p.tp2
    else if p.entry > 0.0 && p.sl > 0.0 && p.entry != p.sl
      then tp2 == BeyondOf(p.side, p.entry, (if p.entry > p.sl then p.entry - p.sl else p.sl - p.entry) * rr)
    else tp2 == 0.0
  }

  lemma SecondTargetIs(p: Position, rr: real, tp2: real)
    requires IsSecondTarget(p, rr, tp2)
    ensures FallbackTp2(p, rr) == tp2
  {
    SameProduct(rr, Abs(p.entry - p.sl), if p.entry > p.sl then p.entry - p.sl else p.sl - p.entry);
  }

  // ----- One tick -----------------------------------------------------------------

  /** A tick stores the returned stop to five decimals, the new row, and a second target
      on a row that has none; where computing the stop raises it stores nothing. */
  lemma TickStores(h: Held, cfg: Cfg, q: Quote, rr: real, tp2: real)
    requires IsSecondTarget(h.pos, rr, tp2)
    ensures var named := h.row.tp2 == 0.0 && tp2 > 0.0;
            var p, row := if named then h.pos.(tp2 := tp2) else h.pos, if named then h.row.(tp2 := tp2) else h.row;
            ManageStep(h, Manage(cfg, q, rr)) ==
              match Managed(Input(cfg, p, q, row))
              case Raised => h
              case Done(sl, row', _) => Held(if sl.Some? then p.(sl := Round(sl.value, 100_000.0)) else p, row')
  {
    SecondTargetIs(h.pos, rr, tp2);
    hide Managed, FallbackTp2, Round, IsSecondTarget;
  }

  // ----- TP1 ------------------------------------------------------------------------

  /** TP1 is set, reached, and was not taken before. */
  predicate ReachesFirst(h: Held, price: real) {
    !h.row.partialDone && h.pos.tp1 > 0.0
    && (match h.pos.side case Buy => price >= h.pos.tp1 case Sell => price <= h.pos.tp1)
  }

  /** Partials are off, or there is a lot to close but no part of it. */
  predicate AllOrNothing(size: real, c: PartialCfg) {
    c.fullClose || (size >= 0.01 && PartialCloseVolume(size, c.fraction, c.minRemain) <= 0.0)
  }

  function Volume(size: real, c: PartialCfg): real {
    if AllOrNothing(size, c) then size else PartialCloseVolume(size, c.fraction, c.minRemain)
  }

  /** The stop that the initial risk is measured from. */
  function Risked(h: Held): real {
    match h.row.initialSl
    case Some(s) => if s != 0.0 then s else if h.pos.sl != 0.0 then h.pos.sl else h.pos.entry
    case None => if h.pos.sl != 0.0 then h.pos.sl else h.pos.entry
  }

  /** What closing v lots at a price realises. */
  function Worth(p: Position, exit: real, v: real): real { MoveOf(p.side, p.entry, exit) * v }

  lemma VolumeIs(h: Held, c: PartialCfg)
    ensures CloseVolume(h.pos.size, c) == Volume(h.pos.size, c)
    ensures ClosesWhole(h.pos.size, c) <==> AllOrNothing(h.pos.size, c)
  {
    hide PartialCloseVolume;
  }

  /** The position and its row once v lots were closed at TP1: the runner's stop is k
      beyond entry, its target TP2 where that extends; the row latches the partial and
      break-even and keeps the initial stop. */
  function RunnerOf(h: Held, c: PartialCfg, v: real, k: real, tp2: real): Held {
    Held(h.pos.(size := Round(h.pos.size - v, 100.0), sl := Round(BeyondOf(h.pos.side, h.pos.entry, k), 100_000.0),
                tp1 := if c.run.extendToTp2 && tp2 > 0.0 then tp2 else h.pos.tp1, tp2 := tp2),
         h.row.(partialDone := true, breakEven := true,
                initialSl := if h.row.initialSl.None? && h.pos.sl > 0.0 then Some(h.pos.sl) else h.row.initialSl))
  }

  lemma RunnerIsStored(h: Held, ev: Event, v: real, k: real, tp2: real)
    requires ev.TakePartial? && ReachesFirst(h, ev.price) && CloseVolume(h.pos.size, ev.pcfg) == v > 0.0
    requires FallbackTp2(h.pos, ev.pcfg.tp2Rr) == tp2 && PartialLock(h, ev) == k
    ensures PartialStep(h, ev) == RunnerOf(h, ev.pcfg, v, k, tp2)
    ensures Tp1TradeOf(h, ev)
         == Some(Tp1Trade(h.pos.tp1, Round(Banked(h.pos, v), 100.0), !ClosesWhole(h.pos.size, ev.pcfg)))
  {
    hide CloseVolume, ClosesWhole, PartialLock, Round, FallbackTp2, Banked;
  }

  lemma LockIs(h: Held, ev: Event, k: real)
    requires ev.TakePartial? && IsRunnerLock(RiskOf(h.pos.side, h.pos.entry, Risked(h)), ev.atr, ev.pcfg.run, k)
    ensures PartialLock(h, ev) == k
  {
    assert PartialRisk(h) == Risked(h);
    hide PostPartialLock, PartialRisk, Risked, IsRunnerLock, RiskOf;
    RunnerLockIs(h.pos.entry, Risked(h), h.pos.side, ev.atr, ev.pcfg.run, k);
  }

  /** The first price at TP1 closes v lots there, books their move and leaves the runner. */
  lemma PartialByPrice(h: Held, c: PartialCfg, price: real, atr: real, v: real, k: real, tp2: real)
    requires ReachesFirst(h, price) && v == Volume(h.pos.size, c) > 0.0
    requires IsRunnerLock(RiskOf(h.pos.side, h.pos.entry, Risked(h)), atr, c.run, k)
    requires IsSecondTarget(h.pos, c.tp2Rr, tp2)
    ensures var ev := TakePartial(c, price, atr);
            && PartialStep(h, ev) == RunnerOf(h, c, v, k, tp2)
            && Tp1TradeOf(h, ev)
            == Some(Tp1Trade(h.pos.tp1, Round(Worth(h.pos, h.pos.tp1, v), 100.0), !AllOrNothing(h.pos.size, c)))
  {
    hide *;
    var ev := TakePartial(c, price, atr);
    SecondTargetIs(h.pos, c.tp2Rr, tp2);
    VolumeIs(h, c);
    LockIs(h, ev, k);
    BooksTheMove(h.pos, v);
    RunnerIsStored(h, ev, v, k, tp2);
  }

  lemma BooksTheMove(p: Position, v: real)
    ensures Banked(p, v) == Worth(p, p.tp1, v)
  {}

  /** Without a first price at TP1 nothing changes; at one with nothing to close only
      the second target is stored. */
  lemma NoPartial(h: Held, c: PartialCfg, price: real, atr: real, tp2: real)
    requires !ReachesFirst(h, price) || Volume(h.pos.size, c) <= 0.0
    requires IsSecondTarget(h.pos, c.tp2Rr, tp2)
    ensures var ev := TakePartial(c, price, atr);
            && PartialStep(h, ev) == (if ReachesFirst(h, price) && tp2 > 0.0 then h.(pos := h.pos.(tp2 := tp2)) else h)
            && Tp1TradeOf(h, ev).None?
  {
    SecondTargetIs(h.pos, c.tp2Rr, tp2);
    VolumeIs(h, c);
    hide PartialCloseVolume, FallbackTp2, IsSecondTarget, AllOrNothing, ClosesWhole, Volume, CloseVolume;
  }

  // ----- What the row remembers over a run ---------------------------------------------

  /** The prices of the run's ticks that did not raise. */
  function PricesSeen(h: Held, evs: seq<Event>): seq<real> {
    if evs == [] then []
    else
      var n := |evs| - 1;
      PricesSeen(h, evs[..n])
      + if evs[n].Manage? && !Raises(InputOf(Run(h, evs[..n]), evs[n])) then [evs[n].quote.price] else []
  }

  /** x is one of the prices and none of them is further in the side's favour. */
  predicate IsBestOf(side: Side, x: real, prices: seq<real>) {
    x in prices && forall p :: p in prices ==> if side == Buy then p <= x else p >= x
  }

  predicate IsWorstOf(side: Side, x: real, prices: seq<real>) {
    x in prices && forall p :: p in prices ==> if side == Buy then p >= x else p <= x
  }

  /** A known extreme, else entry: where the row starts counting. */
  function From(known: Option<real>, entry: real): real { if known.Some? then known.value else entry }

  predicate Remembers(h: Held, h': Held, seen: seq<real>) {
    && h'.pos.side == h.pos.side && h'.pos.entry == h.pos.entry
    && if seen == [] then h'.row.peak == h.row.peak && h'.row.worst == h.row.worst
       else && h'.row.peak.Some? && h'.row.worst.Some?
            && IsBestOf(h.pos.side, h'.row.peak.value, [From(h.row.peak, h.pos.entry)] + seen)
            && IsWorstOf(h.pos.side, h'.row.worst.value, [From(h.row.worst, h.pos.entry)] + seen)
  }

  function Higher(a: real, b: real): real { if a >= b then a else b }

  function Lower(a: real, b: real): real { if a <= b then a else b }

  lemma StepRemembers(h: Held, ev: Event)
    ensures var h', r, r' := Step(h, ev), h.row, Step(h, ev).row;
            && h'.pos.side == h.pos.side && h'.pos.entry == h.pos.entry
            && if ev.Manage? && !Raises(InputOf(h, ev)) then
                 var peak, worst, now := From(r.peak, h.pos.entry), From(r.worst, h.pos.entry), ev.quote.price;
                 && r'.peak == Some(if h.pos.side == Buy then Higher(peak, now) else Lower(peak, now))
                 && r'.worst == Some(if h.pos.side == Buy then Lower(worst, now) else Higher(worst, now))
               else r'.peak == r.peak && r'.worst == r.worst
  {
    hide Settled, Actions, FallbackTp2, Round, Returned, BeFires, Be70Fires, TrailArmed, PartialTrailFires;
  }

  lemma BestSnoc(side: Side, x: real, first: real, seen: seq<real>, now: real, y: real)
    requires IsBestOf(side, x, [first] + seen) && y == (if side == Buy then Higher(x, now) else Lower(x, now))
    ensures IsBestOf(side, y, [first] + (seen + [now]))
  {
    assert [first] + (seen + [now]) == ([first] + seen) + [now];
  }

  lemma WorstSnoc(side: Side, x: real, first: real, seen: seq<real>, now: real, y: real)
    requires IsWorstOf(side, x, [first] + seen) && y == (if side == Buy then Lower(x, now) else Higher(x, now))
    ensures IsWorstOf(side, y, [first] + (seen + [now]))
  {
    assert [first] + (seen + [now]) == ([first] + seen) + [now];
  }

  lemma FirstSeen(side: Side, first: real)
    ensures IsBestOf(side, first, [first] + []) && IsWorstOf(side, first, [first] + [])
  {}

  /** Over every run of ticks and partials the row remembers the best and the worst price
      that any tick saw, entry included. */
  lemma {:induction false} RunRemembersExtremes(h: Held, evs: seq<Event>)
    ensures Remembers(h, Run(h, evs), PricesSeen(h, evs))
  {
    hide Step, Higher, Lower, IsBestOf, IsWorstOf, Raises;
    if evs != [] {
      var n := |evs| - 1;
      var before, seen := Run(h, evs[..n]), PricesSeen(h, evs[..n]);
      RunRemembersExtremes(h, evs[..n]);
      StepRemembers(before, evs[n]);
      if evs[n].Manage? && !Raises(InputOf(before, evs[n])) {
        var now, after := evs[n].quote.price, Step(before, evs[n]).row;
        assert PricesSeen(h, evs) == seen + [now];
        var best, worst := From(h.row.peak, h.pos.entry), From(h.row.worst, h.pos.entry);
        FirstSeen(h.pos.side, best);
        FirstSeen(h.pos.side, worst);
        BestSnoc(h.pos.side, From(before.row.peak, h.pos.entry), best, seen, now, after.peak.value);
        WorstSnoc(h.pos.side, From(before.row.worst, h.pos.entry), worst, seen, now, after.worst.value);
      } else {
        assert PricesSeen(h, evs) == seen;
      }
    }
  }

  // ----- At most one partial ---------------------------------------------------------------

  /** The trades that the run books at TP1. */
  function Booked(h: Held, evs: seq<Event>): nat {
    if evs == [] then 0
    else
      var n := |evs| - 1;
      Booked(h, evs[..n])
      + if evs[n].TakePartial? && Tp1TradeOf(Run(h, evs[..n]), evs[n]).Some? then 1 else 0
  }

  lemma StepLatches(h: Held, ev: Event)
    ensures var taken := ev.TakePartial? && Tp1TradeOf(h, ev).Some?;
            && Step(h, ev).row.partialDone == (h.row.partialDone || taken) && (taken ==> !h.row.partialDone)
            && (!taken ==> Step(h, ev).pos.size == h.pos.size)
            && (h.row.breakEven || taken ==> Step(h, ev).row.breakEven)
            && (h.row.trailing ==> Step(h, ev).row.trailing)
            && (h.row.initialSl.Some? ==> Step(h, ev).row.initialSl == h.row.initialSl)
  {
    hide Settled, Actions, FallbackTp2, Round, Returned, BeFires, Be70Fires, TrailArmed, PartialTrailFires, CloseVolume,
      ClosesWhole, PartialLock, Banked, TpReached;
  }

  /** Over every run a position takes its partial at most once, loses no lots but then,
      and neither its latches nor its first stop are ever taken back. */
  lemma {:induction false} RunBooksOnce(h: Held, evs: seq<Event>)
    ensures var end, n := Run(h, evs), Booked(h, evs);
            && n + (if h.row.partialDone then 1 else 0) == (if end.row.partialDone then 1 else 0)
            && (n == 0 ==> end.pos.size == h.pos.size)
            && (h.row.breakEven ==> end.row.breakEven) && (h.row.trailing ==> end.row.trailing)
            && (h.row.initialSl.Some? ==> end.row.initialSl == h.row.initialSl)
  {
    hide Step, Tp1TradeOf;
    if evs != [] {
      var n := |evs| - 1;
      RunBooksOnce(h, evs[..n]);
      StepLatches(Run(h, evs[..n]), evs[n]);
    }
  }
}
