/** Worst-case loss of the paper broker: for one position over any run of bars,
    and for the whole account over any run of steps. */
module PaperLossProofs {
  import opened Numbers
  import opened ExitManager
  import opened PaperBroker
  import opened PaperLedger

  /** Targets on the profitable side (tp2 of 0 is "none"), a size and an ATR. */
  predicate WellPlaced(p: Position) {
    && ProfitDistance(p.side, p.entry, p.tp1) > 0.0
    && (p.tp2 == 0.0 || ProfitDistance(p.side, p.entry, p.tp2) > 0.0)
    && p.size >= 0.0 && p.atr >= 0.0
  }

  /** What being stopped out now would cost (never positive). */
  function WorstCase(p: Position): (w: real)
    ensures w <= 0.0 || p.size < 0.0
  {
    -RiskDistance(p.entry, p.sl, p.side) * p.size
  }

  /** The stop is at entry or better. */
  predicate Secured(p: Position) { RiskDistance(p.entry, p.sl, p.side) == 0.0 }

  /** The stop the position was opened with (the present one until a step records it). */
  function FirstSl(p: Position): real { if p.initialSl.Some? then p.initialSl.value else p.sl }

  /** It was on the losing side of entry, so there is an initial risk to lock a share of. */
  predicate HasRisk(p: Position) { FirstSl(p) != 0.0 && RiskDistance(p.entry, FirstSl(p), p.side) > 0.0 }

  /** The post-partial lock does not point into a loss: it is a share of the initial
      risk, or its ATR fallback is not negative. */
  predicate LocksForward(c: SymbolCfg, p: Position) { c.run.lockAtr >= 0.0 || (c.run.lockRr > 0.0 && HasRisk(p)) }

  // ----- The runner -------------------------------------------------------------

  lemma PartIsAtMostAll(size: real, fraction: real)
    requires size > 0.0 && fraction > 0.0
    ensures PartOf(size, fraction) <= size
  {
    var f := Min(1.0, fraction);
    MulMonotone(f, 1.0, size);
    assert size * f == f * size;
  }

  lemma LotsAreHundredths(k: int)
    ensures Round2(k as real * LOT) == k as real * LOT
  {
    var lots := k as real * LOT;
    assert lots * 100.0 == k as real;
    RoundFixesGrid(lots, 100.0);
  }

  lemma FloorOfLots(part: real)
    ensures LotSteps(part, LOT) as real * LOT <= part + 0.00000000001
  {}

  /** TP1 never closes more than the position holds (to the cent of a lot). */
  lemma PartialLeavesRunner(size: real, fraction: real, minRemain: real)
    requires PartialCloseVolume(size, fraction, minRemain) > 0.0
    ensures Round2(size - PartialCloseVolume(size, fraction, minRemain)) >= 0.0
  {
    hide Round2, LotSteps, PartOf;
    var steps := LotSteps(PartOf(size, fraction), LOT);
    PartIsAtMostAll(size, fraction);
    FloorOfLots(PartOf(size, fraction));
    LotsAreHundredths(steps);
    TinyRoundsToZero(size - steps as real * LOT);
  }

  lemma HundredthsAreOnGrid(k: int, j: int)
    ensures OnGrid(k as real * LOT + j as real / 100.0, 100.0)
  {
    assert (k as real * LOT + j as real / 100.0) * 100.0 == (k + j) as real;
    assert ((k + j) as real).Floor == k + j;
  }

  lemma SplitOnGrid(size: real, k: int)
    ensures k as real * LOT + Round2(size - k as real * LOT) == size <==> OnGrid(size, 100.0)
  {
    var rest := size - k as real * LOT;
    if OnGrid(size, 100.0) {
      assert rest * 100.0 == ((size * 100.0).Floor - k) as real;
      RoundFixesGrid(rest, 100.0);
    } else {
      hide OnGrid;
      HundredthsAreOnGrid(k, RoundInt(rest * 100.0));
    }
  }

  /** The partial's lots and the runner's lots add up to the position's lots
      exactly when the position was a whole number of hundredths. */
  lemma VolumeIsConservedOnlyOnLotGrid(size: real, fraction: real, minRemain: real)
    requires PartialCloseVolume(size, fraction, minRemain) > 0.0
    ensures var v := PartialCloseVolume(size, fraction, minRemain);
            v + Round2(size - v) == size <==> OnGrid(size, 100.0)
  {
    hide Round2, LotSteps, PartOf, OnGrid;
    LotsAreHundredths(LotSteps(PartOf(size, fraction), LOT));
    SplitOnGrid(size, LotSteps(PartOf(size, fraction), LOT));
  }

  lemma TinyRoundsToZero(x: real)
    requires x >= -0.00000000001
    ensures Round2(x) >= 0.0
  {
    RoundMonotone(-0.00000000001, x, 100.0);
  }

  lemma LockIsForward(c: SymbolCfg, p: Position, q: Quote)
    requires LocksForward(c, p) && p.atr >= 0.0
    ensures PostPartialLock(p.entry, RiskSl(Advanced(c, p, q), p.sl), p.side, Atr(p), c.run) >= 0.0
  {
    hide BeArmed, BeLock, Favourable, Tightest;
    PositiveProduct(Atr(p), c.run.lockAtr);
    PositiveProduct(RiskDistance(p.entry, RiskSl(Advanced(c, p, q), p.sl), p.side), c.run.lockRr);
  }

  lemma ForwardStopIsSecure(side: Side, entry: real, sl: real, atr: real, run: RunnerCfg)
    requires PostPartialLock(entry, sl, side, atr, run) >= 0.0
    ensures RiskDistance(entry, PostPartialSl(side, entry, sl, atr, run), side) == 0.0
  {
    hide PostPartialLock;
  }

  lemma RunnerIsSecured(c: SymbolCfg, p: Position, q: Quote)
    requires WellPlaced(p) && LocksForward(c, p) && PartialFires(c, p, q)
    ensures WellPlaced(Runner(c, p, q)) && Secured(Runner(c, p, q)) && PartialVolume(c, p) > 0.0
    ensures HasRisk(p) ==> HasRisk(Runner(c, p, q))
  {
    hide PartialCloseVolume, Round2, PostPartialSl, BeArmed, BeLock, RiskSl;
    var a := Advanced(c, p, q);
    PartialLeavesRunner(p.size, c.fraction, c.minRemain);
    LockIsForward(c, p, q);
    ForwardStopIsSecure(p.side, p.entry, RiskSl(a, p.sl), Atr(p), c.run);
  }

  // ----- One step ----------------------------------------------------------------

  /** Break-even and trailing only ever move the stop towards profit. */
  lemma StopOnlyTightens(c: SymbolCfg, p: Position, q: Quote)
    ensures var m := Managed(c, p, q);
            && m == p.(justOpened := false, sl := m.sl, peak := m.peak, beTriggered := m.beTriggered,
                       trailActive := m.trailActive, initialSl := m.initialSl)
            && RiskDistance(p.entry, m.sl, p.side) <= RiskDistance(p.entry, p.sl, p.side)
            && ProfitDistance(p.side, p.entry, p.sl) <= ProfitDistance(p.side, p.entry, m.sl)
            && (HasRisk(p) ==> HasRisk(m))
  {
    hide TrailArmed, TrailStop, TrailOffset, BeArmed, BeLock, Favourable;
  }

  lemma ScaleRisk(r: real, s: real, size: real)
    requires r <= s && size >= 0.0
    ensures -s * size <= -r * size
  {}

  lemma StopCostsAtMostRisk(p: Position, sl: real)
    requires p.size >= 0.0 && RiskDistance(p.entry, sl, p.side) <= RiskDistance(p.entry, p.sl, p.side)
    ensures Pnl(p, sl, p.size) >= WorstCase(p)
  {
    ScaleRisk(-ProfitDistance(p.side, p.entry, sl), RiskDistance(p.entry, p.sl, p.side), p.size);
  }

  lemma CloseCostsAtMostRisk(c: SymbolCfg, p: Position, q: Quote)
    requires WellPlaced(p) && ExitStep(c, p, q).Close?
    ensures Cash(p, ExitStep(c, p, q)) >= WorstCase(p)
    ensures Secured(p) ==> Cash(p, ExitStep(c, p, q)) >= 0.0
  {
    hide Managed, Runner, PartialVolume, PartialFires, StopFirst, Favourable, Adverse, WorstCase;
    var m, exit := Managed(c, p, q), ExitStep(c, p, q).exit;
    StopOnlyTightens(c, p, q);
    var gain := ProfitDistance(p.side, p.entry, exit);
    if exit == p.sl || exit == m.sl {
      StopCostsAtMostRisk(p, exit);
      if Secured(p) { PositiveProduct(gain, p.size); }
    } else {
      assert gain > 0.0;
      PositiveProduct(gain, p.size);
      PlacedSize(p);
    }
  }

  lemma PartialBanksGain(c: SymbolCfg, p: Position, q: Quote)
    requires WellPlaced(p) && LocksForward(c, p) && ExitStep(c, p, q).Partial?
    ensures var o := ExitStep(c, p, q);
            && Cash(p, o) > 0.0 && WellPlaced(o.pos) && Secured(o.pos) && WorstCase(o.pos) == 0.0
            && (HasRisk(p) ==> HasRisk(o.pos))
  {
    hide Managed, Runner, PartialVolume, PartialFires, StopFirst, Favourable, Adverse;
    RunnerIsSecured(c, p, q);
    PositiveProduct(ProfitDistance(p.side, p.entry, p.tp1), PartialVolume(c, p));
    assert WorstCase(Runner(c, p, q)) == -0.0 * Runner(c, p, q).size;
  }

  lemma HoldCostsNothing(c: SymbolCfg, p: Position, q: Quote)
    requires WellPlaced(p) && ExitStep(c, p, q).Hold?
    ensures var m := ExitStep(c, p, q).pos;
            && WellPlaced(m) && WorstCase(m) >= WorstCase(p) && (Secured(p) ==> Secured(m))
            && (HasRisk(p) ==> HasRisk(m))
  {
    hide Managed, Runner, PartialVolume, PartialFires, StopFirst, Favourable, Adverse, RiskDistance, ProfitDistance;
    StopOnlyTightens(c, p, q);
    ScaleRisk(RiskDistance(p.entry, Managed(c, p, q).sl, p.side), RiskDistance(p.entry, p.sl, p.side), p.size);
  }

  /** The step's cash plus the worst case left is never below the worst case
      before; a partial banks a gain and secures the rest. */
  lemma StepNeverCostsMore(c: SymbolCfg, p: Position, q: Quote)
    requires WellPlaced(p) && LocksForward(c, p)
    ensures var o := ExitStep(c, p, q);
            && (!o.Close? ==> WellPlaced(o.pos) && Cash(p, o) + WorstCase(o.pos) >= WorstCase(p))
            && (o.Close? ==> Cash(p, o) >= WorstCase(p))
            && (!o.Close? && Secured(p) ==> Secured(o.pos))
            && (Secured(p) ==> Cash(p, o) >= 0.0)
            && (o.Partial? ==> Cash(p, o) > 0.0 && Secured(o.pos))
            && (o.Hold? ==> Cash(p, o) == 0.0)
            && (!o.Close? && HasRisk(p) ==> HasRisk(o.pos))
  {
    hide ExitStep, HasRisk, LocksForward, WellPlaced, Secured, WorstCase, Pnl;
    PlacedSize(p);
    match ExitStep(c, p, q)
    case Hold(_) => HoldCostsNothing(c, p, q);
    case Partial(_, _, _) => PartialBanksGain(c, p, q);
    case Close(_, _, _) => CloseCostsAtMostRisk(c, p, q);
  }

  // ----- One position over a run of bars ---------------------------------------------

  datatype Tick = Tick(cfg: SymbolCfg, quote: Quote)

  /** A position's fate: still open or not, what it has realised, and whether a
      partial was taken. */
  datatype Fate = Fate(open: Option<Position>, realised: real, banked: bool)

  /** A tick that raises changes nothing. */
  function Follow(p: Position, ticks: seq<Tick>): Fate {
    if ticks == [] then Fate(Some(p), 0.0, false)
    else
      var f := Follow(p, ticks[..|ticks| - 1]);
      var t := ticks[|ticks| - 1];
      if f.open.None? || Raises(t.cfg, f.open.value, t.quote) then f
      else
        var o := ExitStep(t.cfg, f.open.value, t.quote);
        Fate(if o.Close? then None else Some(o.pos), f.realised + Cash(f.open.value, o), f.banked || o.Partial?)
  }

  /** Over any run of bars a position loses at most its initial risk; once its
      partial is taken its total is a gain, whatever happens to the runner. */
  lemma {:induction false} WorstCaseLoss(p: Position, ticks: seq<Tick>)
    requires WellPlaced(p) && forall t :: t in ticks ==> LocksForward(t.cfg, p)
    ensures var f := Follow(p, ticks);
            && f.realised >= WorstCase(p)
            && (f.banked ==> f.realised > 0.0)
            && (!f.banked && f.open.Some? ==> f.realised == 0.0)
            && (f.open.Some? ==> WellPlaced(f.open.value) && f.realised + WorstCase(f.open.value) >= WorstCase(p)
                                 && (f.banked ==> Secured(f.open.value)) && (HasRisk(p) ==> HasRisk(f.open.value)))
  {
    hide ExitStep, WellPlaced, WorstCase, Secured, Cash, HasRisk, Raises;
    if ticks == [] {
      PlacedSize(p);
    } else {
      var t := ticks[|ticks| - 1];
      WorstCaseLoss(p, ticks[..|ticks| - 1]);
      var f := Follow(p, ticks[..|ticks| - 1]);
      if f.open.Some? {
        StepNeverCostsMore(t.cfg, f.open.value, t.quote);
        var o := ExitStep(t.cfg, f.open.value, t.quote);
        PlacedSize(f.open.value);
        if !o.Close? { PlacedSize(o.pos); }
      }
    }
  }

  lemma PlacedSize(p: Position)
    requires WellPlaced(p)
    ensures p.size >= 0.0 && WorstCase(p) <= 0.0
  {}

  // ----- The account over a run of steps ---------------------------------------------

  function TotalWorst(ps: seq<Position>): real {
    if ps == [] then 0.0 else TotalWorst(ps[..|ps| - 1]) + WorstCase(ps[|ps| - 1])
  }

  predicate Insured(cfg: Config, p: Position) { WellPlaced(p) && LocksForward(cfg(p.symbol), p) }

  predicate AllInsured(cfg: Config, ps: seq<Position>) { forall i :: 0 <= i < |ps| ==> Insured(cfg, ps[i]) }

  lemma {:induction false} TotalWorstConcat(ps: seq<Position>, qs: seq<Position>)
    ensures TotalWorst(ps + qs) == TotalWorst(ps) + TotalWorst(qs)
  {
    hide WorstCase;
    if qs == [] {
      assert ps + qs == ps;
    } else {
      var n := |qs| - 1;
      TotalWorstConcat(ps, qs[..n]);
      assert (ps + qs)[..|ps| + n] == ps + qs[..n];
    }
  }

  /** One position's part: what it realises and what it still has at risk. */
  lemma PositionNeverCostsMore(cfg: Config, mk: Market, p: Position)
    requires Insured(cfg, p)
    ensures var o := OutcomeOf(cfg, mk, p);
            && (!o.Close? ==> Insured(cfg, o.pos))
            && Cash(p, o) + (if o.Close? then 0.0 else WorstCase(o.pos)) >= WorstCase(p)
  {
    hide ExitStep, WellPlaced, WorstCase, Cash, HasRisk, Secured, QuoteFor;
    var c, q := cfg(p.symbol), QuoteFor(mk, p);
    StepNeverCostsMore(c, p, q);
    ExitKeepsId(c, p, q);
  }

  lemma TotalWorstSnoc(ps: seq<Position>, p: Position)
    ensures TotalWorst(ps + [p]) == TotalWorst(ps) + WorstCase(p)
  {
    assert (ps + [p])[..|ps|] == ps;
    hide WorstCase;
  }

  lemma InsuredSnoc(cfg: Config, ps: seq<Position>, p: Position)
    requires AllInsured(cfg, ps) && Insured(cfg, p)
    ensures AllInsured(cfg, ps + [p])
  {
    hide Insured;
  }

  /** A whole exit pass: what it realises and what the survivors still have at risk
      never fall below what was at risk before. */
  lemma {:induction false} PassNeverCostsMore(cfg: Config, mk: Market, ps: seq<Position>)
    requires AllInsured(cfg, ps)
    ensures AllInsured(cfg, Survivors(cfg, mk, ps))
    ensures Realised(cfg, mk, ps) + TotalWorst(Survivors(cfg, mk, ps)) >= TotalWorst(ps)
  {
    hide OutcomeOf, Insured, WorstCase, Cash;
    if ps != [] {
      var before, p := ps[..|ps| - 1], ps[|ps| - 1];
      assert Insured(cfg, p);
      PassNeverCostsMore(cfg, mk, before);
      PositionNeverCostsMore(cfg, mk, p);
      var o, kept := OutcomeOf(cfg, mk, p), Survivors(cfg, mk, before);
      if o.Close? {
        assert kept + [] == kept;
      } else {
        InsuredSnoc(cfg, kept, o.pos);
        TotalWorstSnoc(kept, o.pos);
      }
    }
  }

  // ----- Lots off the lot grid --------------------------------------------------

  /** Half of 0.025 lots: 0.01 is closed and 0.02 stays. */
  lemma OffGridLotsGrow()
    ensures var v := PartialCloseVolume(0.025, 0.5, 0.01); v == 0.01 && v + Round2(0.025 - v) == 0.03
  {
    assert PartOf(0.025, 0.5) == 0.0125;
    assert LotSteps(0.0125, LOT) == 1;
    assert RoundInt(1.0) == 1 && RoundInt(1.5) == 2;
    assert Round2(0.01) == 0.01 && Round2(0.015) == 0.02;
  }
}
