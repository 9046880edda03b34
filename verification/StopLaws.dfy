/** When each management rule moves the stop, and where to: laws on prices,
    distances and configured numbers alone.  One rule is switched on at a time;
    `CascadeIsItsRules` puts the rules together. */
module StopLaws {
  import opened Numbers
  import opened ExitManager
  import opened StopEngine
  import opened StopEngineProofs
  import opened TriggerLaws

  // ----- Prices ---------------------------------------------------------------

  /** How far the price has moved in the position's favour. */
  function Move(i: Input): real {
    if i.pos.side == Buy then i.quote.price - i.pos.entry else i.pos.entry - i.quote.price
  }

  /** The price d beyond `from` in the position's favour. */
  function Beyond(i: Input, from: real, d: real): real { if i.pos.side == Buy then from + d else from - d }

  /** The best price seen, the present one included. */
  function Best(i: Input): real {
    var before, now := if i.row.peak.Some? then i.row.peak.value else i.pos.entry, i.quote.price;
    if i.pos.side == Buy then (if now >= before then now else before) else if now <= before then now else before
  }

  /** The stop that the initial risk is measured from. */
  function Risked(i: Input): real {
    if i.row.initialSl.Some? && i.row.initialSl.value != 0.0 then i.row.initialSl.value
    else if i.pos.sl != 0.0 then i.pos.sl
    else i.pos.entry
  }

  /** What a tick returns when c is the only stop offered: c where it protects at
      least 1e-9 more; where a SELL has no stop, c where it differs by 1e-9. */
  function Alone(i: Input, c: real): Option<real> {
    var gain := if i.pos.side == Buy then c - i.pos.sl
                else if i.pos.sl > 0.0 then i.pos.sl - c
                else if c >= i.pos.sl then c - i.pos.sl else i.pos.sl - c;
    if gain >= 0.000000001 then Some(c) else None
  }

  /** Returned for a position whose stop is not to move. */
  predicate StaysPut(i: Input) { Managed(i).Done? && Managed(i).sl == None }

  predicate MovesTo(i: Input, c: real) { Managed(i).Done? && Managed(i).sl == Alone(i, c) }

  lemma NoOffer(i: Input)
    requires !Raises(i) && Candidates(i) == []
    ensures StaysPut(i)
  {
    hide Candidates, Raises;
  }

  lemma OneOffer(i: Input, c: real)
    requires !Raises(i) && Candidates(i) == [c]
    ensures MovesTo(i, c)
  {
    hide Candidates, Raises, FinalRow, Actions;
    SettleSnoc(i.pos.side, i.pos.sl, [], c);
    assert [] + [c] == [c];
  }

  // ----- One rule at a time -----------------------------------------------------

  predicate OnlyBreakEven(c: Cfg) { c.be.enabled && !c.adaptive.enabled && !c.trail.enabled && !c.time.enabled }

  predicate OnlyAdaptive(c: Cfg) { !c.be.enabled && c.adaptive.enabled && !c.trail.enabled && !c.time.enabled }

  predicate OnlyTrail(c: Cfg) { !c.be.enabled && !c.adaptive.enabled && c.trail.enabled && !c.time.enabled }

  predicate OnlyTime(c: Cfg) { !c.be.enabled && !c.adaptive.enabled && !c.trail.enabled && c.time.enabled }

  /** The USD trigger is unset, unknown, not reached, or silenced by points. */
  predicate UsdSilent(t: Trigger, distanceFirst: bool, q: Quote) {
    t.usd.None? || q.profitUsd.None? || q.profitUsd.value < t.usd.value || (distanceFirst && t.points.Some?)
  }

  predicate PercentSilent(i: Input) {
    i.cfg.be.triggerPct <= 0.0 || i.pos.entry <= 0.0 || i.quote.price <= 0.0
    || Move(i) < i.cfg.be.triggerPct * i.pos.entry
  }

  /** A lock of k on a position in profit is below the least win in units of risk. */
  predicate TooSmallAWin(i: Input, k: real) {
    var risk := if Risked(i) >= i.pos.entry then Risked(i) - i.pos.entry else i.pos.entry - Risked(i);
    i.cfg.be.minRWin > 0.0 && risk > 0.0 && Move(i) > 0.0 && k < i.cfg.be.minRWin * risk
  }

  // ----- Break-even ---------------------------------------------------------------

  lemma PercentIff(i: Input)
    ensures BePctHit(i) <==> !PercentSilent(i)
  {
    if i.pos.entry > 0.0 { QuotientAtLeast(Profit(i), i.pos.entry, i.cfg.be.triggerPct); }
  }

  lemma BreakEvenOffer(i: Input)
    requires OnlyBreakEven(i.cfg)
    ensures !Raises(i) && Candidates(i) == if BeFires(i) then [BeStop(i)] else []
  {
    hide BeFires, BeStop;
    assert TrailCandidates(i) == [] && TimeCandidates(i) == [] && Be70Candidates(i) == [];
    var cs := BeCandidates(i);
    assert cs + [] + [] + [] == cs;
  }

  lemma HitIff(i: Input, d: real)
    requires IsDistance(i.cfg.be.trigger.points, i.cfg.be.trigger.atrMult, i.quote.atr, i.quote.point, d)
    ensures BeHit(i) <==> || i.row.breakEven || !PercentSilent(i)
                          || !UsdSilent(i.cfg.be.trigger, i.cfg.distanceFirst, i.quote) || Move(i) >= d
  {
    PercentIff(i);
    TriggerIff(i.quote.profitUsd, Move(i), BeTrigger(i), i.quote.atr, i.quote.point, d);
    hide TriggerMet, BePctHit, PercentSilent, IsDistance;
  }

  /** The lock in points, else in ATR, where neither USD nor percent reached theirs. */
  lemma LockIs(i: Input, k: real)
    requires UsdSilent(i.cfg.be.trigger, i.cfg.distanceFirst, i.quote) && PercentSilent(i)
    requires IsDistance(i.cfg.be.lockPoints, i.cfg.be.lockAtrMult, i.quote.atr, i.quote.point, k)
    ensures BeLock(i) == k
  {
    PercentIff(i);
    hide BePctHit, PercentSilent;
  }

  /** A points or ATR trigger: on a position not yet at break-even, with no USD or
      percent trigger reached, the stop moves exactly from d on, and then to entry
      plus the lock k, unless that is too small a win. */
  lemma BreakEvenByDistance(i: Input, d: real, k: real)
    requires OnlyBreakEven(i.cfg) && !i.row.breakEven
    requires UsdSilent(i.cfg.be.trigger, i.cfg.distanceFirst, i.quote) && PercentSilent(i)
    requires IsDistance(i.cfg.be.trigger.points, i.cfg.be.trigger.atrMult, i.quote.atr, i.quote.point, d)
    requires IsDistance(i.cfg.be.lockPoints, i.cfg.be.lockAtrMult, i.quote.atr, i.quote.point, k)
    ensures if Move(i) >= d && !TooSmallAWin(i, k) then MovesTo(i, Beyond(i, i.pos.entry, k)) else StaysPut(i)
  {
    HitIff(i, d);
    LockIs(i, k);
    hide IsDistance, UsdSilent, PercentSilent, BeHit, BeLock;
    BreakEvenSettles(i, k, Move(i) >= d);
  }

  /** A USD lock counts only where no lock in points is known. */
  predicate IsUsdLock(i: Input, k: real) {
    var b, q := i.cfg.be, i.quote;
    if b.lockUsd.Some? && !(b.lockPoints.Some? && q.point.Some? && q.point.value > 0.0)
    then k == (if b.lockUsd.value > 0.0 then b.lockUsd.value else 0.0)
    else IsDistance(b.lockPoints, b.lockAtrMult, q.atr, q.point, k)
  }

  lemma UsdLockIs(i: Input, profit: real, u: real, k: real)
    requires i.cfg.be.trigger.usd == Some(u) && i.quote.profitUsd == Some(profit) && PercentSilent(i)
    requires !(i.cfg.distanceFirst && i.cfg.be.trigger.points.Some?) && IsUsdLock(i, k)
    ensures profit >= u ==> BeLock(i) == k
  {
    PercentIff(i);
    hide BePctHit, PercentSilent;
  }

  /** A USD trigger of u, where points do not silence it and neither the distance nor
      the percentage is reached: the stop moves exactly from a profit of u on. */
  lemma BreakEvenByUsd(i: Input, d: real, u: real, profit: real, k: real)
    requires OnlyBreakEven(i.cfg) && !i.row.breakEven && PercentSilent(i)
    requires IsDistance(i.cfg.be.trigger.points, i.cfg.be.trigger.atrMult, i.quote.atr, i.quote.point, d) && Move(i) < d
    requires i.cfg.be.trigger.usd == Some(u) && i.quote.profitUsd == Some(profit)
    requires !(i.cfg.distanceFirst && i.cfg.be.trigger.points.Some?)
    requires IsUsdLock(i, k)
    ensures if profit >= u && !TooSmallAWin(i, k) then MovesTo(i, Beyond(i, i.pos.entry, k)) else StaysPut(i)
  {
    HitIff(i, d);
    UsdLockIs(i, profit, u, k);
    hide IsDistance, PercentSilent, BeHit, BeLock;
    BreakEvenSettles(i, k, profit >= u);
  }

  lemma PercentLock(i: Input, k: real)
    requires UsdSilent(i.cfg.be.trigger, i.cfg.distanceFirst, i.quote) && BePctHit(i)
    requires IsDistance(i.cfg.be.lockPoints, 0.0, i.quote.atr, i.quote.point, k)
    ensures BeLock(i) == k
  {
    hide BePctHit;
  }

  /** A percent trigger: from that share of the entry price on the stop moves to entry
      (or to a lock in points), however small the win. */
  lemma BreakEvenByPercent(i: Input, d: real, k: real)
    requires OnlyBreakEven(i.cfg) && !i.row.breakEven && UsdSilent(i.cfg.be.trigger, i.cfg.distanceFirst, i.quote)
    requires IsDistance(i.cfg.be.trigger.points, i.cfg.be.trigger.atrMult, i.quote.atr, i.quote.point, d) && Move(i) < d
    requires i.cfg.be.triggerPct > 0.0 && i.pos.entry > 0.0 && i.quote.price > 0.0
    requires IsDistance(i.cfg.be.lockPoints, 0.0, i.quote.atr, i.quote.point, k)
    ensures if Move(i) >= i.cfg.be.triggerPct * i.pos.entry then MovesTo(i, Beyond(i, i.pos.entry, k)) else StaysPut(i)
  {
    var reached := Move(i) >= i.cfg.be.triggerPct * i.pos.entry;
    HitIff(i, d);
    PercentIff(i);
    if reached { PercentLock(i, k); }
    hide IsDistance, UsdSilent, BeHit, BeLock;
    BreakEvenMoves(i, k, reached, false);
  }

  /** Once at break-even the lock is offered at every price. */
  lemma BreakEvenStays(i: Input, k: real)
    requires OnlyBreakEven(i.cfg) && i.row.breakEven
    requires UsdSilent(i.cfg.be.trigger, i.cfg.distanceFirst, i.quote) && PercentSilent(i)
    requires IsDistance(i.cfg.be.lockPoints, i.cfg.be.lockAtrMult, i.quote.atr, i.quote.point, k)
    ensures if TooSmallAWin(i, k) then StaysPut(i) else MovesTo(i, Beyond(i, i.pos.entry, k))
  {
    LockIs(i, k);
    hide IsDistance, UsdSilent, PercentSilent, BeLock;
    BreakEvenSettles(i, k, true);
  }

  /** The lock whichever triggers are reached at once: points first, then USD where its
      trigger is reached, then entry itself by the percentage, then an ATR multiple. */
  predicate IsLock(i: Input, k: real) {
    var b, q := i.cfg.be, i.quote;
    if b.lockPoints.Some? && q.point.Some? && q.point.value > 0.0 then k == b.lockPoints.value * q.point.value
    else if !UsdSilent(b.trigger, i.cfg.distanceFirst, q) && b.lockUsd.Some?
      then k == if b.lockUsd.value > 0.0 then b.lockUsd.value else 0.0
    else if !PercentSilent(i) then k == 0.0
    else k == q.atr * b.lockAtrMult
  }

  lemma AnyLockIs(i: Input, k: real)
    requires IsLock(i, k)
    ensures BeLock(i) == k
  {
    PercentIff(i);
    hide BePctHit, PercentSilent;
  }

  /** Break-even in general: the stop moves to the lock exactly once it was latched or
      any of the three triggers is reached, except for too small a win where the
      percentage is not reached. */
  lemma BreakEvenByAny(i: Input, d: real, k: real)
    requires OnlyBreakEven(i.cfg) && IsLock(i, k)
    requires IsDistance(i.cfg.be.trigger.points, i.cfg.be.trigger.atrMult, i.quote.atr, i.quote.point, d)
    ensures var reached := || i.row.breakEven || Move(i) >= d || !PercentSilent(i)
                           || !UsdSilent(i.cfg.be.trigger, i.cfg.distanceFirst, i.quote);
            if reached && !(TooSmallAWin(i, k) && PercentSilent(i))
            then MovesTo(i, Beyond(i, i.pos.entry, k)) else StaysPut(i)
  {
    HitIff(i, d);
    PercentIff(i);
    AnyLockIs(i, k);
    hide IsDistance, UsdSilent, BeHit, BeLock, BePctHit, PercentSilent, IsLock, MovesTo, StaysPut;
    assert BelowWinFloor(i) <==> TooSmallAWin(i, k) && PercentSilent(i);
    BreakEvenMoves(i, k, BeHit(i), TooSmallAWin(i, k) && PercentSilent(i));
  }

  lemma BreakEvenMoves(i: Input, k: real, reached: bool, tooSmall: bool)
    requires OnlyBreakEven(i.cfg) && (BeHit(i) <==> reached)
    requires reached ==> k == BeLock(i) && (BelowWinFloor(i) <==> tooSmall)
    ensures if reached && !tooSmall then MovesTo(i, Beyond(i, i.pos.entry, k)) else StaysPut(i)
  {
    BreakEvenOffer(i);
    hide BeHit, BeLock, Candidates, Managed, Raises, BelowWinFloor, Alone;
    if BeFires(i) { OneOffer(i, BeStop(i)); } else { NoOffer(i); }
  }

  lemma BreakEvenSettles(i: Input, k: real, reached: bool)
    requires OnlyBreakEven(i.cfg) && PercentSilent(i) && (BeHit(i) <==> reached)
    requires reached ==> k == BeLock(i)
    ensures if reached && !TooSmallAWin(i, k) then MovesTo(i, Beyond(i, i.pos.entry, k)) else StaysPut(i)
  {
    PercentIff(i);
    hide BeHit, BeLock, BePctHit, PercentSilent, MovesTo, StaysPut;
    assert reached ==> (BelowWinFloor(i) <==> TooSmallAWin(i, k));
    BreakEvenMoves(i, k, reached, TooSmallAWin(i, k));
  }

  // ----- 70% of the way to TP1 --------------------------------------------------------

  /** The stop d behind the best price seen. */
  function Behind(i: Input, d: real): real { if i.pos.side == Buy then Best(i) - d else Best(i) + d }

  lemma BestIsPeak(i: Input)
    ensures Peak(i) == Best(i) && Profit(i) == Move(i)
    ensures forall d :: Toward(i.pos.side, Peak(i), -d) == Behind(i, d)
  {}

  /** Entry or the stop d behind the best price, whichever protects more (a SELL
      without a stop takes the latter). */
  function EntryOrBehind(i: Input, d: real): real {
    var b, e := Behind(i, d), i.pos.entry;
    if i.pos.side == Sell && i.pos.sl <= 0.0 then b
    else if i.pos.side == Buy then (if b > e then b else e)
    else if b < e then b else e
  }

  lemma TwoOffers(i: Input, d: real)
    requires !Raises(i) && Candidates(i) == [i.pos.entry, Behind(i, d)]
    ensures MovesTo(i, EntryOrBehind(i, d))
  {
    hide Candidates, Raises, FinalRow, Actions, Best;
    SettleTwo(i.pos.side, i.pos.sl, [], i.pos.entry, Behind(i, d));
    assert [] + [i.pos.entry, Behind(i, d)] == [i.pos.entry, Behind(i, d)];
  }

  /** The distance from entry to TP1 (the row's where the position has none); None
      without a target. */
  function Span(i: Input): Option<real> {
    var tp1 := if i.pos.tp1 != 0.0 then i.pos.tp1 else i.row.tp1;
    if tp1 <= 0.0 || tp1 == i.pos.entry then None
    else Some(if tp1 >= i.pos.entry then tp1 - i.pos.entry else i.pos.entry - tp1)
  }

  lemma ShareIff(i: Input)
    requires OnlyAdaptive(i.cfg) && !i.row.breakEven
    ensures Be70Fires(i) <==> Span(i).Some? && Move(i) >= i.cfg.adaptive.triggerPct * Span(i).value
  {
    assert Profit(i) == Move(i) && !BeMoves(i);
    hide Profit, Move, BeMoves;
    if Span(i).Some? {
      assert Span(i).value == Abs(Tp1(i) - i.pos.entry);
      QuotientAtLeast(Profit(i), Span(i).value, i.cfg.adaptive.triggerPct);
    }
  }

  /** The 70% rule: on a position not yet at break-even the stop moves exactly from
      the configured share of the way to TP1 on. */
  lemma AdaptiveByShare(i: Input)
    requires OnlyAdaptive(i.cfg) && !i.row.breakEven
    ensures if Span(i).Some? && Move(i) >= i.cfg.adaptive.triggerPct * Span(i).value
            then MovesTo(i, EntryOrBehind(i, i.quote.atr * i.cfg.adaptive.trailAtr))
            else StaysPut(i)
  {
    ShareIff(i);
    AdaptiveOffer(i);
    var d := i.quote.atr * i.cfg.adaptive.trailAtr;
    assert Be70Dist(i) == d;
    hide Candidates, Managed, Raises, Be70Fires, Be70Dist, Best, Behind, Span, Move, Alone, EntryOrBehind;
    if Be70Fires(i) { TwoOffers(i, d); } else { NoOffer(i); }
  }

  /** A position already at break-even is left alone by it. */
  lemma AdaptiveOnce(i: Input)
    requires OnlyAdaptive(i.cfg) && i.row.breakEven
    ensures StaysPut(i)
  {
    AdaptiveOffer(i);
    hide Candidates, Managed, Raises;
    NoOffer(i);
  }

  lemma AdaptiveOffer(i: Input)
    requires OnlyAdaptive(i.cfg)
    ensures !Raises(i) && Candidates(i) == if Be70Fires(i) then [i.pos.entry, Behind(i, Be70Dist(i))] else []
  {
    BestIsPeak(i);
    hide Be70Fires, Be70Dist, Peak, Best, Behind;
    assert BeCandidates(i) == [] && TrailCandidates(i) == [] && TimeCandidates(i) == [];
    var cs := Be70Candidates(i);
    assert [] + cs + [] + [] == cs;
  }

  // ----- Trailing -------------------------------------------------------------------------

  /** Managing a stop raises exactly where trailing is on in points of unknown size. */
  lemma RaisesWithoutPointSize(i: Input)
    ensures Managed(i).Raised? <==>
            var t := i.cfg.trail;
            t.enabled && t.spec.pointsAtrMult.None? && t.spec.points.Some?
            && (i.quote.point.None? || i.quote.point.value <= 0.0)
  {
    TrailDistanceLaw(i.cfg.trail.spec, i.quote.atr, i.quote.point);
    hide TrailDistance;
  }

  /** The loss if the initial stop is hit; not positive once that locks a profit. */
  function Risk(i: Input): real {
    if i.pos.side == Buy then i.pos.entry - Risked(i) else Risked(i) - i.pos.entry
  }

  /** Armed before, or by the activation trigger at distance d, whose USD profit
      configured points silence, or as deferred. */
  predicate Armed(i: Input, d: real) {
    var t := i.cfg.trail;
    var usd := if i.cfg.distanceFirst && t.activation.points.Some? then None else t.activation.usd;
    i.row.trailing || Arms(Move(i), Risk(i), i.row.partialDone, i.quote.profitUsd, usd, d, t.defer)
  }

  lemma ArmedIff(i: Input, d: real)
    requires OnlyTrail(i.cfg)
    requires IsDistance(i.cfg.trail.activation.points, i.cfg.trail.activation.atrMult, i.quote.atr, i.quote.point, d)
    ensures TrailArmed(i) <==> Armed(i, d)
  {
    assert RiskSl(i) == Risked(i) && !Be70Fires(i);
    hide RiskSl, Risked, Arms, IsDistance, Be70Fires, TrailActivationAllowed, ProfitRr;
    var p, q, t := i.pos, i.quote, i.cfg.trail;
    ActivationIff(p.side, p.entry, RiskSl(i), q.price, i.row.trailing, i.row.partialDone, q.profitUsd,
                  Effective(t.activation, i.cfg.distanceFirst), t.defer, q.atr, q.point, d);
  }

  /** The trail's own tightened distance. */
  predicate IsTrailing(i: Input, behind: real) {
    var d := TrailDistance(i.cfg.trail.spec, i.quote.atr, i.quote.point);
    d.Some? && behind == if i.row.partialDone then d.value * i.cfg.run.tightenMult else d.value
  }

  /** The trail: armed, the stop follows the best price, but never to the losing side
      of entry while in profit; a runner's stop follows it armed or not. */
  lemma TrailFollowsBest(i: Input, d: real, behind: real)
    requires OnlyTrail(i.cfg) && IsTrailing(i, behind)
    requires IsDistance(i.cfg.trail.activation.points, i.cfg.trail.activation.atrMult, i.quote.atr, i.quote.point, d)
    ensures var c := Behind(i, behind);
            var losing := if i.pos.side == Buy then c < i.pos.entry else c > i.pos.entry;
            if Armed(i, d) then MovesTo(i, if Move(i) > 0.0 && losing then i.pos.entry else c)
            else if i.row.partialDone then MovesTo(i, c)
            else StaysPut(i)
  {
    ArmedIff(i, d);
    BestIsPeak(i);
    TrailTightens(i, behind);
    hide Armed, IsDistance, TrailArmed, TrailDist, Peak, Best, Behind, Profit, Move, IsTrailing, Alone, Settled,
      Actions, FinalRow;
    assert BeCandidates(i) == [] && Be70Candidates(i) == [] && TimeCandidates(i) == [];
    var cs := TrailCandidates(i);
    assert [] + [] + cs + [] == cs && Candidates(i) == cs;
    hide Candidates;
    if TrailArmed(i) {
      OneOffer(i, TrailStop(i));
    } else if i.row.partialDone {
      OneOffer(i, Behind(i, behind));
    } else {
      NoOffer(i);
    }
  }

  lemma TrailTightens(i: Input, behind: real)
    requires IsTrailing(i, behind)
    ensures TrailDist(i) == Some(behind) && !Raises(i)
  {
    var d := TrailDistance(i.cfg.trail.spec, i.quote.atr, i.quote.point).value;
    TightenedBy(i.cfg, i.quote.atr, i.quote.point, i.row.partialDone, d);
    hide TrailDistance, Tightened;
    var x := TrailDist(i).value;
    assert x == behind;
  }

  lemma TightenedBy(c: Cfg, atr: real, point: Option<real>, partialDone: bool, d: real)
    requires TrailDistance(c.trail.spec, atr, point) == Some(d)
    ensures var t := Tightened(c, atr, point, partialDone);
            t.Some? && t.value == if partialDone then d * c.run.tightenMult else d
  {
    hide TrailDistance;
    var t := Tightened(c, atr, point, partialDone).value;
    SameProduct(d, TightenMultiplier(partialDone, c.run), if partialDone then c.run.tightenMult else 1.0);
    assert d * 1.0 == d;
    assert t == d * TightenMultiplier(partialDone, c.run);
  }

  // ----- Time decay -------------------------------------------------------------------------

  /** Where time decay pulls the stop to. */
  function DecayTarget(i: Input): real {
    var t, e, r := i.cfg.time, i.pos.entry, Risked(i);
    if t.targetProfit > 0.0 then Beyond(i, e, t.targetProfit * i.quote.atr)
    else if t.targetBe then e
    else
      var floor := Beyond(i, e, -(t.targetAtr * i.quote.atr));
      if i.pos.side == Buy then (if floor >= r then floor else r) else if floor <= r then floor else r
  }

  /** c divides the way from the initial risk to the target as the age divides the
      window; from the window's end on it is the target. */
  predicate Interpolates(i: Input, c: real) {
    var t, r, q := i.cfg.time, Risked(i), i.quote;
    if q.age >= t.start + t.window then c == DecayTarget(i)
    else (c - r) * t.window == (DecayTarget(i) - r) * (q.age - t.start)
  }

  predicate Decays(i: Input) {
    i.quote.age > i.cfg.time.start && i.cfg.time.window > 0.0 && Risked(i) != i.pos.entry
    && (i.pos.side == Buy || i.pos.sl > 0.0)
  }

  lemma InterpolatedOnce(c: real, s: real, r: real, window: real)
    requires window > 0.0 && (c - r) * window == (s - r) * window
    ensures c == s
  {
    CancelMul(c - r, s - r, window);
    CancelMul(s - r, c - r, window);
  }

  lemma ProgressIs(i: Input)
    requires i.cfg.time.window > 0.0 && i.quote.age > i.cfg.time.start
    ensures var t, p := i.cfg.time, TimeProgress(i);
            if i.quote.age >= t.start + t.window then p == 1.0 else p * t.window == i.quote.age - t.start
  {
    var t, a := i.cfg.time, i.quote.age - i.cfg.time.start;
    MulDiv(a, t.window);
    QuotientAtLeast(a, t.window, 1.0);
    QuotientAtLeast(a, t.window, 0.0);
    var q := a / t.window;
    assert 1.0 * t.window == t.window && 0.0 * t.window == 0.0;
    assert q >= 0.0 && (q >= 1.0 <==> a >= t.window) && q * t.window == a;
  }

  lemma Weighted(r: real, g: real, p: real, w: real, s: real)
    requires s == r + (g - r) * p
    ensures (s - r) * w == (g - r) * (p * w)
  {
    var d := g - r;
    assert s - r == d * p;
    assert d * p * w == d * (p * w);
  }

  lemma TimeStopIs(i: Input, c: real)
    requires Decays(i) && Interpolates(i, c)
    ensures TimeStop(i) == c
  {
    assert RiskSl(i) == Risked(i) && TimeTarget(i) == DecayTarget(i);
    var r, g, p, w := Risked(i), DecayTarget(i), TimeProgress(i), i.cfg.time.window;
    ProgressIs(i);
    hide DecayTarget, TimeTarget, RiskSl, Risked, TimeProgress;
    var s := TimeStop(i);
    assert s == r + (g - r) * p;
    if i.quote.age >= i.cfg.time.start + w {
      assert (g - r) * 1.0 == g - r;
    } else {
      Weighted(r, g, p, w, s);
      InterpolatedOnce(c, s, r, w);
    }
  }

  /** Time decay: nothing moves up to the start age; from then on the stop is the
      interpolated one, where it protects more. */
  lemma DecayByAge(i: Input, c: real)
    requires OnlyTime(i.cfg) && (Decays(i) ==> Interpolates(i, c))
    ensures if Decays(i) then MovesTo(i, c) else StaysPut(i)
  {
    if Decays(i) { TimeStopIs(i, c); }
    assert RiskSl(i) == Risked(i);
    hide Interpolates, TimeStop, RiskSl, Risked, Settled, Actions, FinalRow, Alone;
    assert BeCandidates(i) == [] && Be70Candidates(i) == [] && TrailCandidates(i) == [];
    var cs := TimeCandidates(i);
    assert [] + [] + [] + cs == cs && Candidates(i) == cs;
    hide Candidates;
    if Decays(i) { OneOffer(i, c); } else { NoOffer(i); }
  }

  // ----- What the row remembers ---------------------------------------------------------------

  predicate Protects(i: Input, c: real) {
    if i.pos.side == Buy then c > i.pos.sl else i.pos.sl <= 0.0 || c < i.pos.sl
  }

  /** Break-even is latched by a stop that moves, the other two latches by none. */
  lemma BreakEvenLatches(i: Input)
    requires OnlyBreakEven(i.cfg)
    ensures var r := Managed(i).row;
            && (r.breakEven <==> i.row.breakEven || exists c :: c in Candidates(i) && Protects(i, c))
            && (r.bePctFired <==> i.row.bePctFired || !PercentSilent(i))
            && r.trailing == i.row.trailing && r.partialDone == i.row.partialDone
  {
    BreakEvenOffer(i);
    PercentIff(i);
    assert !TrailArmed(i) && !PartialTrailFires(i) && !Be70Fires(i);
    hide BeHit, BePctHit, PercentSilent, BelowWinFloor, BeStop, TrailArmed, PartialTrailFires, Be70Fires, Actions,
      Settled, Candidates, TrailDist, Raises;
    TrackedKeeps(i);
    if BeFires(i) { assert BeStop(i) in Candidates(i); }
  }

  lemma AdaptiveRow(i: Input)
    requires OnlyAdaptive(i.cfg)
    ensures var r := Managed(i).row;
            && r.breakEven == (i.row.breakEven || Be70Fires(i)) && r.trailing == (i.row.trailing || Be70Fires(i))
            && (Be70Fires(i) ==> r.trailDistance == Some(Round(Be70Dist(i), 100_000_000.0)))
  {
    assert !TrailArmed(i) && !PartialTrailFires(i) && !BeFires(i) && !Raises(i);
    hide TrailArmed, PartialTrailFires, Be70Fires, BeFires, Actions, Settled, Raises, TrailDist, Round, Clamped,
      Tracked;
    TrackedKeeps(i);
  }

  /** The 70% rule latches both, and the distance it trails at, exactly when it fires. */
  lemma AdaptiveLatches(i: Input)
    requires OnlyAdaptive(i.cfg) && !i.row.breakEven
    ensures var r, fired := Managed(i).row, Span(i).Some? && Move(i) >= i.cfg.adaptive.triggerPct * Span(i).value;
            && r.breakEven == fired && r.trailing == (i.row.trailing || fired)
            && (fired ==> r.trailDistance.Some?
                          && Abs(r.trailDistance.value - i.quote.atr * i.cfg.adaptive.trailAtr) <= 0.000000005)
  {
    ShareIff(i);
    AdaptiveRow(i);
    var d := Be70Dist(i);
    RoundError(d, 100_000_000.0);
    hide Managed, Be70Fires, Span, Move, Round, OnlyAdaptive;
    assert d == i.quote.atr * i.cfg.adaptive.trailAtr;
    hide Be70Dist;
  }

  /** Trailing is latched when armed or forced on a runner, with its distance;
      break-even when the stop is held at entry. */
  lemma TrailLatches(i: Input, d: real, behind: real)
    requires OnlyTrail(i.cfg) && IsTrailing(i, behind)
    requires IsDistance(i.cfg.trail.activation.points, i.cfg.trail.activation.atrMult, i.quote.atr, i.quote.point, d)
    ensures var r, c := Managed(i).row, Behind(i, behind);
            var losing := if i.pos.side == Buy then c < i.pos.entry else c > i.pos.entry;
            && (r.trailing <==> Armed(i, d) || i.row.partialDone)
            && (r.breakEven <==> i.row.breakEven || (Armed(i, d) && Move(i) > 0.0 && losing))
            && (r.trailing ==> r.trailDistance.Some? && Abs(r.trailDistance.value - behind) <= 0.000000005)
  {
    ArmedIff(i, d);
    BestIsPeak(i);
    TrailTightens(i, behind);
    RoundError(behind, 100_000_000.0);
    assert !Be70Fires(i) && !BeFires(i);
    assert i.row.trailing ==> Armed(i, d);
    hide Armed, IsDistance, TrailArmed, TrailDist, Peak, Best, Behind, Profit, Move, IsTrailing, Actions, Settled,
      Be70Fires, BeFires, Round, Raises;
    TrackedKeeps(i);
  }

  // ----- What is logged --------------------------------------------------------------------------

  /** Break-even is logged exactly where the stop it offers protects more. */
  lemma BreakEvenLogs(i: Input)
    requires OnlyBreakEven(i.cfg)
    ensures Managed(i).actions == if exists c :: c in Candidates(i) && Protects(i, c) then [BreakEven] else []
  {
    BreakEvenOffer(i);
    assert !TrailArmed(i) && !PartialTrailFires(i) && !Be70Fires(i) && !TimeFires(i);
    hide BeHit, BelowWinFloor, BeStop, TrailArmed, PartialTrailFires, Be70Fires, TimeFires, Settled, Candidates,
      FinalRow, Raises;
    if BeFires(i) { assert BeStop(i) in Candidates(i); }
  }

  lemma AdaptiveLogs(i: Input)
    requires OnlyAdaptive(i.cfg)
    ensures Managed(i).actions == if !i.row.breakEven && Span(i).Some?
                                     && Move(i) >= i.cfg.adaptive.triggerPct * Span(i).value
                                  then [Be70Trail] else []
  {
    if !i.row.breakEven { ShareIff(i); }
    assert !TrailArmed(i) && !PartialTrailFires(i) && !BeFires(i) && !Raises(i) && !TimeFires(i);
    hide TrailArmed, PartialTrailFires, BeFires, TimeFires, Settled, FinalRow, Raises, Span, Move;
    if i.row.breakEven { assert !Be70Fires(i); }
    hide Be70Fires;
  }

  /** Trailing is logged whenever armed, with break-even where that first holds the stop
      at entry; forced on a runner, for a SELL alone and only where it protects more. */
  lemma TrailLogs(i: Input, d: real, behind: real)
    requires OnlyTrail(i.cfg) && IsTrailing(i, behind)
    requires IsDistance(i.cfg.trail.activation.points, i.cfg.trail.activation.atrMult, i.quote.atr, i.quote.point, d)
    ensures var c := Behind(i, behind);
            var losing := if i.pos.side == Buy then c < i.pos.entry else c > i.pos.entry;
            Managed(i).actions ==
              if Armed(i, d) then (if Move(i) > 0.0 && losing && !i.row.breakEven then [BreakEven] else []) + [Trail]
              else if i.row.partialDone && i.pos.side == Sell && Protects(i, c) then [TrailAfterPartial]
              else []
  {
    ArmedIff(i, d);
    BestIsPeak(i);
    TrailTightens(i, behind);
    assert !Be70Fires(i) && !BeFires(i) && !TimeFires(i);
    assert BeforeTrail(i) == i.pos.sl;
    hide Armed, IsDistance, TrailArmed, TrailDist, Peak, Best, Behind, Profit, Move, IsTrailing, Settled, FinalRow,
      Be70Fires, BeFires, TimeFires, Raises, BeforeTrail;
  }

  lemma DecayLogs(i: Input, c: real)
    requires OnlyTime(i.cfg) && (Decays(i) ==> Interpolates(i, c))
    ensures Managed(i).actions == if Decays(i) && Protects(i, c) then [TimeTighten] else []
  {
    if Decays(i) { TimeStopIs(i, c); }
    assert RiskSl(i) == Risked(i);
    assert !BeFires(i) && !Be70Fires(i) && !TrailArmed(i) && !PartialTrailFires(i) && !Raises(i);
    assert BeforeTime(i) == i.pos.sl;
    hide Interpolates, TimeStop, RiskSl, Risked, Settled, FinalRow, BeFires, Be70Fires, TrailArmed,
      PartialTrailFires, Raises, BeforeTime;
  }

  /** The worst price seen, the present one included. */
  function WorstSeen(i: Input): real {
    var before, now := if i.row.worst.Some? then i.row.worst.value else i.pos.entry, i.quote.price;
    if i.pos.side == Buy then (if now <= before then now else before) else if now >= before then now else before
  }

  /** An error of at most half a step of four decimals, in units of the risk. */
  lemma ErrorScales(x: real, q: real, risk: real, xr: real, qr: real)
    requires risk > 0.0 && x * risk == xr && q * risk == qr && -0.00005 <= x - q <= 0.00005
    ensures -0.00005 * risk <= xr - qr <= 0.00005 * risk
  {
    var e, h := x - q, 0.00005 * risk;
    Distribute(x, q, risk);
    var er := e * risk;
    assert er == xr - qr;
    UpTo(e, 0.00005, risk, er, h);
    UpTo(-0.00005, e, risk, -h, er);
  }

  lemma UpTo(a: real, b: real, s: real, scaledA: real, scaledB: real)
    requires s > 0.0 && a <= b && scaledA == a * s && scaledB == b * s
    ensures scaledA <= scaledB
  {
    MulMonotone(a, b, s);
  }

  lemma RoundedRatio(d: real, risk: real, x: real)
    requires risk > 0.0 && x == Ratio(d, risk)
    ensures InUnitsOf(risk, d, Some(x), None)
  {
    var q := d / risk;
    RoundError(q, 10_000.0);
    hide Round;
    MulDiv(d, risk);
    ErrorScales(x, q, risk, x * risk, d);
  }

  lemma RowIsTracked(i: Input)
    requires !Raises(i)
    ensures var r, t := Managed(i).row, Tracked(i);
            r.peak == t.peak && r.worst == t.worst && r.initialSl == t.initialSl && r.mfeR == t.mfeR && r.maeR == t.maeR
  {
    hide TrailArmed, PartialTrailFires, Be70Fires, BeMoves, BePctHit, Clamped, TrailDist, Settled, Actions,
      Be70Dist, Tracked, Round, Raises;
    ArmedHasDistance(i);
  }

  /** x is d in units of the risk, to four decimals; without a risk, x stays. */
  predicate InUnitsOf(risk: real, d: real, x: Option<real>, prior: Option<real>) {
    && (risk <= 0.0 ==> x == prior)
    && (risk > 0.0 ==> x.Some? && Abs(x.value * risk - d) <= 0.00005 * risk)
  }

  function Ratio(d: real, risk: real): real
    requires risk > 0.0
  {
    Round(d / risk, 10_000.0)
  }

  lemma InRWhen(i: Input, d: real, prior: Option<real>)
    ensures var risk := RiskDist(i); InR(i, d, prior) == if risk > 0.0 then Some(Ratio(d, risk)) else prior
  {
    hide RiskDist, Round;
  }

  lemma InRIs(i: Input, d: real, prior: Option<real>)
    ensures InUnitsOf(RiskDist(i), d, InR(i, d, prior), prior)
  {
    InRWhen(i, d, prior);
    var risk := RiskDist(i);
    hide RiskDist, Ratio, InR;
    if risk > 0.0 { RoundedRatio(d, risk, Ratio(d, risk)); }
  }

  function RiskSize(i: Input): real {
    if Risked(i) >= i.pos.entry then Risked(i) - i.pos.entry else i.pos.entry - Risked(i)
  }

  function GainSeen(i: Input): real { if i.pos.side == Buy then Best(i) - i.pos.entry else i.pos.entry - Best(i) }

  function LossSeen(i: Input): real {
    if i.pos.side == Buy then i.pos.entry - WorstSeen(i) else WorstSeen(i) - i.pos.entry
  }

  lemma TrackedIs(i: Input)
    ensures var t := Tracked(i);
            && t.peak == Some(Best(i)) && t.worst == Some(WorstSeen(i)) && RiskDist(i) == RiskSize(i)
            && t.mfeR == InR(i, GainSeen(i), i.row.mfeR) && t.maeR == InR(i, LossSeen(i), i.row.maeR)
            && t.initialSl == (if i.row.initialSl.None? && i.pos.sl > 0.0 then Some(i.pos.sl) else i.row.initialSl)
  {
    assert Peak(i) == Best(i) && Worst(i) == WorstSeen(i) && RiskSl(i) == Risked(i);
    hide InR, Best, WorstSeen, Peak, Worst, Risked, RiskSl;
    assert ProfitDistance(i.pos.side, i.pos.entry, Peak(i)) == GainSeen(i);
    assert -ProfitDistance(i.pos.side, i.pos.entry, Worst(i)) == LossSeen(i);
  }

  /** Every tick records the best and the worst price seen and the initial stop, and
      both excursions in units of the initial risk, to four decimals. */
  lemma ExcursionsAreTracked(i: Input)
    requires !Raises(i)
    ensures var r, risk := Managed(i).row, RiskSize(i);
            && r.peak == Some(Best(i)) && r.worst == Some(WorstSeen(i))
            && r.initialSl == (if i.row.initialSl.None? && i.pos.sl > 0.0 then Some(i.pos.sl) else i.row.initialSl)
            && InUnitsOf(risk, GainSeen(i), r.mfeR, i.row.mfeR) && InUnitsOf(risk, LossSeen(i), r.maeR, i.row.maeR)
  {
    RowIsTracked(i);
    TrackedIs(i);
    InRIs(i, GainSeen(i), i.row.mfeR);
    InRIs(i, LossSeen(i), i.row.maeR);
    hide Managed, Best, WorstSeen, InR, Tracked, RiskDist, RiskSize, GainSeen, LossSeen, InUnitsOf;
  }

  // ----- The rules together -----------------------------------------------------------------

  function BreakEvenPart(i: Input): Input {
    var c := i.cfg;
    i.(cfg := c.(adaptive := c.adaptive.(enabled := false), trail := c.trail.(enabled := false),
                 time := c.time.(enabled := false)))
  }

  /** The 70% rule by itself, on the row that break-even leaves. */
  function AdaptivePart(i: Input): Input {
    var c := i.cfg;
    i.(cfg := c.(be := c.be.(enabled := false), trail := c.trail.(enabled := false),
                 time := c.time.(enabled := false)),
       row := RowAfter(BreakEvenPart(i)))
  }

  function TrailPart(i: Input): Input {
    var c := i.cfg;
    i.(cfg := c.(be := c.be.(enabled := false), adaptive := c.adaptive.(enabled := false),
                 time := c.time.(enabled := false)),
       row := RowAfter(AdaptivePart(i)))
  }

  function TimePart(i: Input): Input {
    var c := i.cfg;
    i.(cfg := c.(be := c.be.(enabled := false), adaptive := c.adaptive.(enabled := false),
                 trail := c.trail.(enabled := false)),
       row := RowAfter(TrailPart(i)))
  }

  function RowAfter(i: Input): Row { if Managed(i).Done? then Managed(i).row else i.row }

  /** j sees the prices of i, on a row that has already been tracked. */
  predicate Retracked(i: Input, j: Input) {
    && j.pos == i.pos && j.quote == i.quote
    && j.row == Tracked(i).(breakEven := j.row.breakEven, bePctFired := j.row.bePctFired, trailing := j.row.trailing,
                            trailDistance := j.row.trailDistance)
  }

  lemma TrackingIsOnce(i: Input, j: Input)
    requires Retracked(i, j)
    ensures Peak(j) == Peak(i) && RiskSl(j) == RiskSl(i) && Profit(j) == Profit(i) && Tp1(j) == Tp1(i)
    ensures Tracked(j) == j.row && j.row.partialDone == i.row.partialDone
  {
    assert RiskDist(j) == RiskDist(i) && Worst(j) == Worst(i) && InitialSl(j) == InitialSl(i);
    hide Round;
  }

  lemma SameReads(i: Input, b: Input)
    requires b.pos == i.pos && b.quote == i.quote && b.row == i.row
    ensures RiskDist(b) == RiskDist(i) && Tracked(b) == Tracked(i) && Profit(b) == Profit(i)
  {}

  lemma SameBreakEven(i: Input, b: Input)
    requires b.cfg.be == i.cfg.be && b.cfg.distanceFirst == i.cfg.distanceFirst
    requires b.pos == i.pos && b.quote == i.quote && b.row == i.row
    ensures BePctHit(b) == BePctHit(i) && BeFires(b) == BeFires(i) && BeStop(b) == BeStop(i) && BeMoves(b) == BeMoves(i)
  {
    SameReads(i, b);
    assert BeTrigger(b) == BeTrigger(i);
    hide RiskDist, Profit, BeTrigger;
    assert BePctHit(b) == BePctHit(i);
    hide BePctHit;
    assert BeLock(b) == BeLock(i) && BeHit(b) == BeHit(i);
  }

  lemma BreakEvenPartIs(i: Input)
    ensures var b := BreakEvenPart(i);
            && !Raises(b) && Candidates(b) == BeCandidates(i)
            && RowAfter(b) == Tracked(i).(breakEven := i.row.breakEven || BeMoves(i),
                                          bePctFired := i.row.bePctFired || (i.cfg.be.enabled && BePctHit(i)))
  {
    var b := BreakEvenPart(i);
    SameBreakEven(i, b);
    SameReads(i, b);
    assert !TrailArmed(b) && !PartialTrailFires(b) && !Be70Fires(b) && !TimeFires(b);
    hide Actions, Settled, BePctHit, BeMoves, BeFires, BeStop, Tracked, TrailArmed, PartialTrailFires, Be70Fires,
      TimeFires, TrailDist;
    var cs := BeCandidates(i);
    assert cs + [] + [] + [] == cs && Candidates(b) == cs;
    assert FinalRow(b) == Tracked(i).(
      breakEven := i.row.breakEven || BeMoves(i), bePctFired := i.row.bePctFired || (i.cfg.be.enabled && BePctHit(i)),
      trailing := i.row.trailing, trailDistance := i.row.trailDistance);
    TrackedKeeps(i);
  }

  lemma AdaptiveRetracks(i: Input)
    ensures Retracked(i, AdaptivePart(i))
  {
    BreakEvenPartIs(i);
    TrackedKeeps(i);
    hide BreakEvenPart, BeMoves, BePctHit, Tracked, RowAfter;
  }

  lemma AdaptiveSame(i: Input, a: Input)
    requires Retracked(i, a) && OnlyAdaptiveOf(i.cfg, a.cfg) && a.row.breakEven == (i.row.breakEven || BeMoves(i))
    ensures Be70Fires(a) == Be70Fires(i) && Be70Candidates(a) == Be70Candidates(i) && !BeFires(a)
  {
    TrackingIsOnce(i, a);
    hide Retracked, Profit, Tp1, Peak, BeHit, BelowWinFloor;
    assert !BeMoves(a);
    hide BeMoves;
    assert Be70Dist(a) == Be70Dist(i);
  }

  predicate OnlyAdaptiveOf(c: Cfg, d: Cfg) {
    d.adaptive == c.adaptive && !d.be.enabled && !d.trail.enabled && !d.time.enabled
  }

  /** The 70% rule by itself, on a row that has been tracked. */
  lemma AdaptiveAlone(a: Input)
    requires !a.cfg.be.enabled && !a.cfg.trail.enabled && !a.cfg.time.enabled && Tracked(a) == a.row
    ensures !Raises(a) && Candidates(a) == Be70Candidates(a)
    ensures var f := Be70Fires(a);
            RowAfter(a) == a.row.(
              breakEven := a.row.breakEven || f, trailing := a.row.trailing || f,
              trailDistance := if f then Some(Round(Be70Dist(a), 100_000_000.0)) else a.row.trailDistance)
  {
    assert !BeFires(a) && !TrailArmed(a) && !PartialTrailFires(a) && !TimeFires(a) && !Raises(a) && !BeMoves(a);
    hide BePctHit, TrailArmed, PartialTrailFires, TimeFires, Settled, Actions, TrailDist, Be70Fires, BeFires,
      BeMoves, Raises, Tracked, Clamped, Round, Be70Dist, Be70Candidates;
    assert BeCandidates(a) == [] && TrailCandidates(a) == [] && TimeCandidates(a) == [];
    var cs := Be70Candidates(a);
    assert [] + cs + [] + [] == cs;
  }

  lemma AdaptivePartIs(i: Input)
    ensures var a := AdaptivePart(i);
            !Raises(a) && Candidates(a) == Be70Candidates(i) && RowAfter(a) == RowBeforeTrail(i)
  {
    var a := AdaptivePart(i);
    BreakEvenPartIs(i);
    AdaptiveRetracks(i);
    TrackedKeeps(i);
    assert a.row == Tracked(i).(breakEven := i.row.breakEven || BeMoves(i),
                                bePctFired := i.row.bePctFired || (i.cfg.be.enabled && BePctHit(i)));
    hide BreakEvenPart, BeMoves, BePctHit, Tracked, RowAfter, Retracked, Be70Fires, Be70Candidates, Candidates,
      Raises, Round, BeFires;
    AdaptiveSame(i, a);
    TrackingIsOnce(i, a);
    AdaptiveAlone(a);
    assert Be70Dist(a) == Be70Dist(i);
  }

  lemma TrailRetracks(i: Input)
    ensures Retracked(i, TrailPart(i)) && TrailPart(i).row == RowBeforeTrail(i)
  {
    AdaptivePartIs(i);
    TrackedKeeps(i);
    hide AdaptivePart, BeMoves, BePctHit, Be70Fires, Be70Dist, Tracked, RowAfter, Round;
  }

  lemma TrailSame(i: Input, t: Input)
    requires Retracked(i, t) && t.cfg.trail == i.cfg.trail && t.cfg.run == i.cfg.run
    requires t.cfg.distanceFirst == i.cfg.distanceFirst && !t.cfg.adaptive.enabled
    requires t.row.trailing == (i.row.trailing || Be70Fires(i))
    ensures TrailArmed(t) == TrailArmed(i) && PartialTrailFires(t) == PartialTrailFires(i)
    ensures TrailDist(t) == TrailDist(i) && Raises(t) == Raises(i)
    ensures TrailDist(i).Some? ==> Clamped(t) == Clamped(i) && TrailStop(t) == TrailStop(i)
  {
    TrackingIsOnce(i, t);
    hide Retracked, Profit, Peak, RiskSl, Tp1, BeMoves;
    assert !Be70Fires(t);
    hide Be70Fires;
    SameTightened(i.cfg, t.cfg, i.quote.atr, i.quote.point, i.row.partialDone);
    hide Tightened;
  }

  lemma SameTightened(c: Cfg, d: Cfg, atr: real, point: Option<real>, partialDone: bool)
    requires d.trail == c.trail && d.run == c.run
    ensures Tightened(d, atr, point, partialDone) == Tightened(c, atr, point, partialDone)
  {
    var x := TrailDistance(c.trail.spec, atr, point);
    if x.Some? {
      TightenedBy(c, atr, point, partialDone, x.value);
      TightenedBy(d, atr, point, partialDone, x.value);
      SameProduct(x.value, d.run.tightenMult, c.run.tightenMult);
      hide TrailDistance, Tightened;
      assert Tightened(d, atr, point, partialDone).value == Tightened(c, atr, point, partialDone).value;
    }
  }

  /** The trail by itself, on a row that has been tracked. */
  lemma TrailAlone(t: Input)
    requires !t.cfg.be.enabled && !t.cfg.adaptive.enabled && !t.cfg.time.enabled && Tracked(t) == t.row && !Raises(t)
    ensures Candidates(t) == TrailCandidates(t)
    ensures var armed, forced := TrailArmed(t), PartialTrailFires(t);
            (armed || forced ==> TrailDist(t).Some?)
            && RowAfter(t) == t.row.(
              breakEven := t.row.breakEven || (armed && Clamped(t)), trailing := t.row.trailing || armed || forced,
              trailDistance := if armed || forced then Some(Round(TrailDist(t).value, 100_000_000.0))
                               else t.row.trailDistance)
  {
    ArmedHasDistance(t);
    assert !BeFires(t) && !Be70Fires(t) && !TimeFires(t) && !BeMoves(t);
    hide BePctHit, TrailArmed, PartialTrailFires, TimeFires, Settled, Actions, TrailDist, Be70Fires, BeFires,
      BeMoves, Raises, Tracked, Clamped, Round, TrailCandidates;
    assert BeCandidates(t) == [] && Be70Candidates(t) == [] && TimeCandidates(t) == [];
    var cs := TrailCandidates(t);
    assert [] + [] + cs + [] == cs;
  }

  lemma TrailOffersSame(i: Input, t: Input)
    requires Retracked(i, t) && !Raises(i) && !Raises(t) && TrailDist(t) == TrailDist(i)
    requires TrailArmed(t) == TrailArmed(i) && PartialTrailFires(t) == PartialTrailFires(i)
    requires TrailDist(i).Some? ==> TrailStop(t) == TrailStop(i)
    ensures TrailCandidates(t) == TrailCandidates(i)
  {
    TrackingIsOnce(i, t);
    ArmedHasDistance(i);
    assert t.pos == i.pos;
    hide Retracked, TrailArmed, PartialTrailFires, TrailDist, Raises, TrailStop, Peak, Tracked;
  }

  lemma TrailPartIs(i: Input)
    requires !Raises(i)
    ensures var t := TrailPart(i);
            !Raises(t) && Candidates(t) == TrailCandidates(i) && RowAfter(t) == FinalRow(i)
  {
    var t := TrailPart(i);
    TrailRetracks(i);
    TrackedKeeps(i);
    ArmedHasDistance(i);
    assert t.cfg.trail == i.cfg.trail && t.cfg.run == i.cfg.run && t.cfg.distanceFirst == i.cfg.distanceFirst;
    assert !t.cfg.be.enabled && !t.cfg.adaptive.enabled && !t.cfg.time.enabled;
    hide TrailPart, Tracked, BePctHit, BeMoves, Be70Fires, Round, Be70Dist, TrailArmed, PartialTrailFires,
      TrailDist, Clamped, TrailStop, TrailCandidates, Candidates, RowAfter, Raises, Retracked;
    TrailSame(i, t);
    TrackingIsOnce(i, t);
    TrailOffersSame(i, t);
    TrailAlone(t);
  }

  lemma TimeRetracks(i: Input)
    requires !Raises(i)
    ensures Retracked(i, TimePart(i)) && TimePart(i).row == FinalRow(i)
  {
    TrailPartIs(i);
    TrackedKeeps(i);
    hide TrailPart, Tracked, BePctHit, BeMoves, Be70Fires, Round, Be70Dist, TrailArmed, PartialTrailFires, Clamped,
      TrailDist, RowAfter, Raises;
  }

  lemma TimeStopOf(j: Input, r: real, g: real, p: real, c: real)
    requires j.cfg.time.window > 0.0 && RiskSl(j) == r && TimeTarget(j) == g && TimeProgress(j) == p
    requires c == r + (g - r) * p
    ensures TimeStop(j) == c
  {
    SameProduct(g - r, p, TimeProgress(j));
    hide RiskSl, TimeTarget, TimeProgress;
  }

  lemma TimeTargetSame(i: Input, t: Input)
    requires t.pos == i.pos && t.quote == i.quote && t.cfg.time == i.cfg.time && RiskSl(t) == RiskSl(i)
    ensures TimeTarget(t) == TimeTarget(i)
    ensures i.cfg.time.window > 0.0 ==> TimeProgress(t) == TimeProgress(i)
  {
    hide RiskSl;
  }

  lemma TimeSame(i: Input, t: Input)
    requires Retracked(i, t) && t.cfg.time == i.cfg.time
    ensures TimeCandidates(t) == TimeCandidates(i)
  {
    TrackingIsOnce(i, t);
    TimeTargetSame(i, t);
    hide RiskSl, TimeTarget, TimeProgress, Tracked, Peak, Profit, Tp1;
    if TimeFires(i) {
      var r, g, p := RiskSl(i), TimeTarget(i), TimeProgress(i);
      var c := r + (g - r) * p;
      TimeStopOf(i, r, g, p, c);
      TimeStopOf(t, r, g, p, c);
      hide TimeStop;
    }
  }

  /** A rule that is off leaves the row as it finds it. */
  lemma OnlyTimeKeepsRow(t: Input)
    requires !t.cfg.be.enabled && !t.cfg.adaptive.enabled && !t.cfg.trail.enabled && Tracked(t) == t.row
    ensures !Raises(t) && Candidates(t) == TimeCandidates(t) && RowAfter(t) == t.row
  {
    assert !BeFires(t) && !Be70Fires(t) && !TrailArmed(t) && !PartialTrailFires(t) && !Raises(t) && !BeMoves(t);
    hide BePctHit, TrailArmed, PartialTrailFires, TimeCandidates, Settled, Actions, TrailDist, Be70Fires, BeFires,
      BeMoves, Raises, Tracked, Clamped;
    assert BeCandidates(t) == [] && Be70Candidates(t) == [] && TrailCandidates(t) == [];
    var cs := TimeCandidates(t);
    assert [] + [] + [] + cs == cs;
    assert FinalRow(t) == t.row;
  }

  lemma TimePartIs(i: Input)
    requires !Raises(i)
    ensures var t := TimePart(i);
            !Raises(t) && Candidates(t) == TimeCandidates(i) && RowAfter(t) == FinalRow(i)
  {
    TimeRetracks(i);
    TrackingIsOnce(i, TimePart(i));
    TimeSame(i, TimePart(i));
    OnlyTimeKeepsRow(TimePart(i)) by { hide Tracked, Retracked, RowAfter, TrailPart; }
  }

  /** The cascade is its four rules: it offers exactly what each rule offers by itself,
      one after another, each on the row that the rules before it leave; and it
      leaves the row that the last of them does. */
  lemma CascadeIsItsRules(i: Input)
    requires !Raises(i)
    ensures !Raises(BreakEvenPart(i)) && !Raises(AdaptivePart(i)) && !Raises(TrailPart(i)) && !Raises(TimePart(i))
    ensures Candidates(i) == Candidates(BreakEvenPart(i)) + Candidates(AdaptivePart(i)) + Candidates(TrailPart(i))
                             + Candidates(TimePart(i))
    ensures Managed(i).Done? && Managed(i).row == RowAfter(TimePart(i))
  {
    BreakEvenPartIs(i);
    AdaptivePartIs(i);
    TrailPartIs(i);
    TimePartIs(i);
    hide BreakEvenPart, AdaptivePart, TrailPart, TimePart, RowAfter, BeCandidates, Be70Candidates, TrailCandidates,
      TimeCandidates, Raises, FinalRow, Settled, Actions;
  }

  /** The stop settled is the tightest that the rules settle by themselves. */
  lemma ResultIsTightestRule(i: Input)
    requires !Raises(i) && (i.pos.side == Buy || i.pos.sl > 0.0)
    ensures !Raises(BreakEvenPart(i)) && !Raises(AdaptivePart(i)) && !Raises(TrailPart(i)) && !Raises(TimePart(i))
    ensures var s, parts := Settled(i), [Settled(BreakEvenPart(i)), Settled(AdaptivePart(i)), Settled(TrailPart(i)),
                                         Settled(TimePart(i))];
            s in parts && forall c :: c in parts ==> AsTight(i.pos.side, s, c)
  {
    CascadeIsItsRules(i);
    var a, b, c, d := BreakEvenPart(i), AdaptivePart(i), TrailPart(i), TimePart(i);
    assert a.pos == b.pos == c.pos == d.pos == i.pos;
    hide BreakEvenPart, AdaptivePart, TrailPart, TimePart, Candidates, Raises, RowAfter;
    TightestOfFour(i.pos.side, i.pos.sl, Candidates(a), Candidates(b), Candidates(c), Candidates(d));
  }

  lemma TightestOfFour(side: Side, sl: real, a: seq<real>, b: seq<real>, c: seq<real>, d: seq<real>)
    requires side == Buy || sl > 0.0
    ensures var s, parts := Settle(side, sl, sl, a + b + c + d), [Settle(side, sl, sl, a), Settle(side, sl, sl, b),
                                                                 Settle(side, sl, sl, c), Settle(side, sl, sl, d)];
            s in parts && forall x :: x in parts ==> AsTight(side, s, x)
  {
    TightestOfTwo(side, sl, a, b);
    TightestOfTwo(side, sl, a + b, c);
    TightestOfTwo(side, sl, a + b + c, d);
  }

  lemma TightestOfTwo(side: Side, sl: real, a: seq<real>, b: seq<real>)
    requires side == Buy || sl > 0.0
    ensures var s, x, y := Settle(side, sl, sl, a + b), Settle(side, sl, sl, a), Settle(side, sl, sl, b);
            s == if AsTight(side, x, y) then x else y
  {
    SettleIsTightest(side, sl, a);
    SettleIsTightest(side, sl, b);
    SettleIsTightest(side, sl, a + b);
    hide Settle;
    assert forall c :: c in a + b <==> c in a || c in b;
  }
}
