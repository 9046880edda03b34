/** What the stop cascade guarantees: it returns the tightest candidate, and it
    treats BUY and SELL as mirror images. */
module StopEngineProofs {
  import opened Numbers
  import opened ExitManager
  import opened StopEngine

  // ----- Tightest candidate -------------------------------------------------

  /** `s` protects at least as much as `c`. */
  predicate AsTight(side: Side, s: real, c: real) {
    if side == Buy then s >= c else s <= c
  }

  lemma {:induction false} SettleIsTightest(side: Side, sl: real, cs: seq<real>)
    requires side == Buy || sl > 0.0
    ensures var s := Settle(side, sl, sl, cs);
            (s == sl || s in cs) && AsTight(side, s, sl) && forall c :: c in cs ==> AsTight(side, s, c)
  {
    if cs != [] {
      var n := |cs| - 1;
      SettleIsTightest(side, sl, cs[..n]);
      assert cs == cs[..n] + [cs[n]];
    }
  }

  /** The managed stop is the tightest of the old stop and every fired rule's
      candidate; nothing is returned exactly when it gains less than 1e-9. */
  lemma ManagedStopIsTightest(i: Input)
    requires !Raises(i) && (i.pos.side == Buy || i.pos.sl > 0.0)
    ensures var side, sl, s, out := i.pos.side, i.pos.sl, Settled(i), Managed(i);
            && (s == sl || s in Candidates(i))
            && (forall c :: c == sl || c in Candidates(i) ==> AsTight(side, s, c))
            && (out.sl.None? <==> ProfitDistance(side, sl, s) < EPS)
            && (out.sl.Some? ==> out.sl.value == s)
  {
    SettleIsTightest(i.pos.side, i.pos.sl, Candidates(i));
  }

  lemma {:induction false} SettleTakesLast(cs: seq<real>, sl: real)
    requires sl <= 0.0
    ensures Settle(Sell, sl, sl, cs) == if cs == [] then sl else cs[|cs| - 1]
  {}

  /** A SELL that has no stop takes the last fired rule's candidate instead. */
  lemma SellWithoutStopTakesLastRule(i: Input)
    requires !Raises(i) && i.pos.side == Sell && i.pos.sl <= 0.0
    ensures var cs := Candidates(i);
            Settled(i) == if cs == [] then i.pos.sl else cs[|cs| - 1]
  {
    SettleTakesLast(Candidates(i), i.pos.sl);
  }

  predicate IsTightestOffer(i: Input)
    requires !Raises(i)
  {
    forall c :: c in Candidates(i) ==> AsTight(i.pos.side, Settled(i), c)
  }

  /** What the trail block offers, armed or started on the runner. */
  predicate TrailOffers(i: Input) { TrailArmed(i) || PartialTrailFires(i) }

  function TrailOffer(i: Input): real
    requires !Raises(i) && TrailOffers(i)
  {
    if TrailArmed(i) then TrailStop(i) else Toward(i.pos.side, Peak(i), -TrailDist(i).value)
  }

  /** No earlier rule of a SELL offers less than the last one: the trail against the
      break-even and 70% rules, and without a trail the 70% rule's own two stops. */
  predicate LastOfferIsLowest(i: Input)
    requires !Raises(i)
  {
    var adaptive := Peak(i) + Be70Dist(i);
    if TrailOffers(i) then
      && (BeFires(i) ==> TrailOffer(i) <= i.pos.entry - BeLock(i))
      && (Be70Fires(i) ==> TrailOffer(i) <= i.pos.entry && TrailOffer(i) <= adaptive)
    else Be70Fires(i) ==> adaptive <= i.pos.entry
  }

  lemma OffersOfSellWithoutStop(i: Input)
    requires !Raises(i) && i.pos.side == Sell && i.pos.sl <= 0.0
    ensures Candidates(i)
         == (if BeFires(i) then [i.pos.entry - BeLock(i)] else [])
            + (if Be70Fires(i) then [i.pos.entry, Peak(i) + Be70Dist(i)] else [])
            + (if TrailOffers(i) then [TrailOffer(i)] else [])
    ensures Be70Fires(i) ==> !BeFires(i)
  {
    hide TrailArmed, TrailDist, Clamped, Peak, BeLock, BeHit, BelowWinFloor, Be70Dist;
    assert TimeCandidates(i) == [];
    var cs := BeCandidates(i) + Be70Candidates(i) + TrailCandidates(i);
    assert cs + [] == cs;
  }

  /** A SELL without a stop still gets the tightest offered stop exactly when the
      last rule that fires offers the lowest one. */
  lemma SellWithoutStopIsTightestIff(i: Input)
    requires !Raises(i) && i.pos.side == Sell && i.pos.sl <= 0.0
    ensures IsTightestOffer(i) <==> LastOfferIsLowest(i)
  {
    hide Candidates, Settled, BeFires, Be70Fires, TrailOffers, TrailOffer, Peak, Be70Dist, BeLock, Raises;
    OffersOfSellWithoutStop(i);
    SellWithoutStopTakesLastRule(i);
    var cs := Candidates(i);
    var be := if BeFires(i) then [i.pos.entry - BeLock(i)] else [];
    var adaptive := if Be70Fires(i) then [i.pos.entry, Peak(i) + Be70Dist(i)] else [];
    assert forall c :: c in be + adaptive <==> c in be || c in adaptive;
    if BeFires(i) { assert be[0] in be; }
    if Be70Fires(i) { assert adaptive[0] in adaptive && adaptive[1] in adaptive; }
    if TrailOffers(i) {
      assert cs == be + adaptive + [TrailOffer(i)] && Settled(i) == TrailOffer(i);
      assert forall c :: c in cs <==> c in be || c in adaptive || c == TrailOffer(i);
    } else {
      assert cs == be + adaptive + [] == be + adaptive;
      if Be70Fires(i) { assert be == [] && cs == adaptive; }
    }
  }

  // ----- A SELL without a stop, at one input -----------------------------------

  /** Break-even one point into profit, then a trail five ATR behind the peak. */
  const LOCK_THEN_TRAIL: Cfg :=
    var oneAtr := Trigger(None, None, 1.0);
    Cfg(BreakEvenCfg(true, 0.0, oneAtr, None, None, 1.0, 0.0), AdaptiveCfg(false, 0.0, 0.0),
        TrailCfg(true, TrailSpec(None, None, 5.0), oneAtr, DeferCfg(false, 0.0, false, None)),
        TimeCfg(false, 0.0, 0.0, false, 0.0, 0.0), RunnerCfg(0.35, 0.15, 0.65, true), false)

  /** Sold at 100 without a stop and two points in profit: offered 99 and then 100,
      the position is given 100. */
  lemma SellWithoutStopMissesTightest()
    ensures var i := Input(LOCK_THEN_TRAIL, Position(Sell, 100.0, 0.0, 0.0, 0.0, 1.0),
                           Quote(98.0, 1.0, None, None, 0.0), FRESH_ROW);
            && !Raises(i) && Candidates(i) == [99.0, 100.0] && Settled(i) == 100.0
            && Managed(i).sl == Some(100.0) && !IsTightestOffer(i)
  {
    var i := Input(LOCK_THEN_TRAIL, Position(Sell, 100.0, 0.0, 0.0, 0.0, 1.0),
                   Quote(98.0, 1.0, None, None, 0.0), FRESH_ROW);
    assert BeFires(i) && BeLock(i) == 1.0 && !Be70Fires(i) && TrailDist(i) == Some(5.0) && TrailArmed(i);
    assert Peak(i) == 98.0 && Clamped(i) && TrailStop(i) == 100.0;
    OffersOfSellWithoutStop(i);
    SellWithoutStopTakesLastRule(i);
    assert 99.0 in Candidates(i) by { assert Candidates(i)[0] == 99.0; }
  }

  // ----- Mirror symmetry ----------------------------------------------------

  function Flip(side: Side): Side { if side == Buy then Sell else Buy }

  /** Reflection of a price about the entry. */
  function Mirror(entry: real, x: real): real { 2.0 * entry - x }

  function MirrorOpt(entry: real, x: Option<real>): Option<real> {
    if x.Some? then Some(Mirror(entry, x.value)) else None
  }

  /** 0 stands for "no target" and stays 0. */
  function MirrorTp(entry: real, tp: real): real { if tp == 0.0 then 0.0 else Mirror(entry, tp) }

  function MirrorRow(e: real, r: Row): Row {
    r.(initialSl := MirrorOpt(e, r.initialSl), peak := MirrorOpt(e, r.peak), worst := MirrorOpt(e, r.worst),
       tp1 := MirrorTp(e, r.tp1), tp2 := MirrorTp(e, r.tp2))
  }

  function MirrorInput(i: Input): Input {
    var p, e := i.pos, i.pos.entry;
    i.(pos := p.(side := Flip(p.side), sl := Mirror(e, p.sl), tp1 := MirrorTp(e, p.tp1)),
       quote := i.quote.(price := Mirror(e, i.quote.price)),
       row := MirrorRow(e, i.row))
  }

  predicate BothPositive(entry: real, x: real) { x > 0.0 && Mirror(entry, x) > 0.0 }

  /** A live stop, and prices that stay positive when reflected. */
  predicate Mirrorable(i: Input) {
    var e := i.pos.entry;
    && e > 0.0 && BothPositive(e, i.quote.price) && BothPositive(e, i.pos.sl)
    && (i.row.initialSl.Some? ==> BothPositive(e, i.row.initialSl.value))
    && (i.pos.tp1 != 0.0 ==> BothPositive(e, i.pos.tp1))
    && (i.row.tp1 != 0.0 ==> BothPositive(e, i.row.tp1))
  }

  lemma MirrorPrices(i: Input)
    requires Mirrorable(i)
    ensures var m, e := MirrorInput(i), i.pos.entry;
            && Peak(m) == Mirror(e, Peak(i)) && Worst(m) == Mirror(e, Worst(i))
            && RiskSl(m) == Mirror(e, RiskSl(i)) && RiskDist(m) == RiskDist(i) && Profit(m) == Profit(i)
  {}

  lemma MirrorTracked(i: Input)
    requires Mirrorable(i)
    ensures Tracked(MirrorInput(i)) == MirrorRow(i.pos.entry, Tracked(i))
  {
    MirrorPrices(i);
  }

  lemma MirrorPct(i: Input)
    requires Mirrorable(i)
    ensures BePctHit(MirrorInput(i)) == BePctHit(i)
  {
    MirrorPrices(i);
    hide Profit;
  }

  /** What reflection leaves as it is. */
  lemma MirrorKeeps(i: Input)
    ensures var m, q := MirrorInput(i), i.quote;
            && m.cfg == i.cfg && m.pos.entry == i.pos.entry && m.pos.side == Flip(i.pos.side)
            && m.pos.sl == Mirror(i.pos.entry, i.pos.sl) && m.quote == q.(price := Mirror(i.pos.entry, q.price))
            && m.row.breakEven == i.row.breakEven && m.row.bePctFired == i.row.bePctFired
            && m.row.trailing == i.row.trailing && m.row.partialDone == i.row.partialDone
            && m.row.trailDistance == i.row.trailDistance
  {}

  lemma MirrorBeLock(i: Input)
    requires Mirrorable(i)
    ensures BeLock(MirrorInput(i)) == BeLock(i)
  {
    MirrorPct(i);
    MirrorKeeps(i);
    hide MirrorInput, Mirrorable, BePctHit;
  }

  lemma MirrorBeFires(i: Input)
    requires Mirrorable(i)
    ensures BeFires(MirrorInput(i)) == BeFires(i)
  {
    MirrorPct(i);
    MirrorKeeps(i);
    MirrorPrices(i);
    MirrorBeLock(i);
    hide MirrorInput, Mirrorable, BePctHit, BeLock, Profit, RiskDist, TriggerMet, BeTrigger, Peak, Worst, RiskSl;
    var m := MirrorInput(i);
    assert BeTrigger(m) == BeTrigger(i) by { SameTrigger(i, m); }
    assert BelowWinFloor(m) == BelowWinFloor(i);
  }

  lemma SameTrigger(i: Input, m: Input)
    requires m.cfg == i.cfg
    ensures BeTrigger(m) == BeTrigger(i)
  {}

  lemma MirrorBreakEven(i: Input)
    requires Mirrorable(i)
    ensures var m, e := MirrorInput(i), i.pos.entry;
            && BePctHit(m) == BePctHit(i) && BeFires(m) == BeFires(i) && BeMoves(m) == BeMoves(i)
            && BeStop(m) == Mirror(e, BeStop(i))
  {
    MirrorPct(i);
    MirrorBeLock(i);
    MirrorBeFires(i);
    MirrorKeeps(i);
    assert BothPositive(i.pos.entry, i.pos.sl);
    hide MirrorInput, Mirrorable, BePctHit, BeLock, BeFires;
  }

  lemma MirrorBe70(i: Input)
    requires Mirrorable(i)
    ensures Be70Fires(MirrorInput(i)) == Be70Fires(i)
  {
    MirrorPrices(i);
    MirrorBreakEven(i);
    var m, e := MirrorInput(i), i.pos.entry;
    assert Tp1(m) == MirrorTp(e, Tp1(i));
    assert Abs(Tp1(i) - e) == Abs(Mirror(e, Tp1(i)) - e);
  }

  lemma MirrorTrailArmed(i: Input)
    requires Mirrorable(i)
    ensures TrailArmed(MirrorInput(i)) == TrailArmed(i)
    ensures PartialTrailFires(MirrorInput(i)) == PartialTrailFires(i)
  {
    MirrorPrices(i);
    MirrorBe70(i);
    var m, e := MirrorInput(i), i.pos.entry;
    assert ProfitRr(m.pos.side, e, RiskSl(m), m.quote.price) == ProfitRr(i.pos.side, e, RiskSl(i), i.quote.price);
  }

  lemma MirrorTrailStop(i: Input)
    requires Mirrorable(i)
    ensures var m, e := MirrorInput(i), i.pos.entry;
            && TrailDist(m) == TrailDist(i) && Raises(m) == Raises(i)
            && (TrailDist(i).Some? ==> Clamped(m) == Clamped(i) && TrailStop(m) == Mirror(e, TrailStop(i)))
  {
    MirrorPrices(i);
    var m := MirrorInput(i);
    assert m.cfg == i.cfg && m.quote.atr == i.quote.atr && m.quote.point == i.quote.point
           && m.row.partialDone == i.row.partialDone;
  }

  lemma MirrorInterpolation(e: real, a: real, b: real, p: real)
    ensures Mirror(e, a) + (Mirror(e, b) - Mirror(e, a)) * p == Mirror(e, a + (b - a) * p)
  {
    assert Mirror(e, b) - Mirror(e, a) == -(b - a);
    assert -(b - a) * p == -((b - a) * p);
  }

  lemma MirrorTimeTarget(i: Input)
    requires Mirrorable(i)
    ensures TimeTarget(MirrorInput(i)) == Mirror(i.pos.entry, TimeTarget(i))
  {
    hide RiskSl, Mirrorable;
    assert RiskSl(MirrorInput(i)) == Mirror(i.pos.entry, RiskSl(i)) by { MirrorPrices(i); }
  }

  lemma MirrorTimeFires(i: Input)
    requires Mirrorable(i)
    ensures TimeFires(MirrorInput(i)) == TimeFires(i)
  {
    MirrorPrices(i);
  }

  lemma MirrorTime(i: Input)
    requires Mirrorable(i)
    ensures var m, e := MirrorInput(i), i.pos.entry;
            && TimeFires(m) == TimeFires(i)
            && (TimeFires(i) ==> TimeStop(m) == Mirror(e, TimeStop(i)))
  {
    hide RiskSl, TimeTarget, Mirrorable;
    var m, e := MirrorInput(i), i.pos.entry;
    MirrorTimeFires(i);
    if TimeFires(i) {
      assert RiskSl(m) == Mirror(e, RiskSl(i)) by { MirrorPrices(i); }
      MirrorTimeTarget(i);
      assert TimeProgress(m) == TimeProgress(i);
      hide TimeProgress;
      MirrorInterpolation(e, RiskSl(i), TimeTarget(i), TimeProgress(i));
    }
  }

  ghost predicate Reflected(e: real, cs: seq<real>, ms: seq<real>) {
    |ms| == |cs| && forall k :: 0 <= k < |cs| ==> ms[k] == Mirror(e, cs[k])
  }

  lemma MirrorBeCandidates(i: Input)
    requires Mirrorable(i)
    ensures Reflected(i.pos.entry, BeCandidates(i), BeCandidates(MirrorInput(i)))
  {
    MirrorBreakEven(i);
  }

  lemma MirrorToward(side: Side, e: real, x: real, d: real)
    ensures Toward(Flip(side), Mirror(e, x), d) == Mirror(e, Toward(side, x, d))
  {}

  lemma MirrorBe70Candidates(i: Input)
    requires Mirrorable(i)
    ensures Reflected(i.pos.entry, Be70Candidates(i), Be70Candidates(MirrorInput(i)))
  {
    var m, e, d := MirrorInput(i), i.pos.entry, Be70Dist(i);
    MirrorBe70(i);
    assert m.pos.side == Flip(i.pos.side) && m.pos.entry == e && Be70Dist(m) == d;
    assert Peak(m) == Mirror(e, Peak(i)) by { MirrorPrices(i); }
    hide Be70Fires, Be70Dist, Peak, Mirrorable, MirrorInput, Toward;
    MirrorToward(i.pos.side, e, Peak(i), -d);
    assert e == Mirror(e, e);
  }

  lemma MirrorTrailCandidates(i: Input)
    requires Mirrorable(i) && !Raises(i)
    ensures !Raises(MirrorInput(i))
    ensures Reflected(i.pos.entry, TrailCandidates(i), TrailCandidates(MirrorInput(i)))
  {
    MirrorPrices(i);
    MirrorTrailArmed(i);
    MirrorTrailStop(i);
  }

  lemma ReflectedConcat(e: real, a: seq<real>, a': seq<real>, b: seq<real>, b': seq<real>)
    requires Reflected(e, a, a') && Reflected(e, b, b')
    ensures Reflected(e, a + b, a' + b')
  {}

  lemma MirrorCandidates(i: Input)
    requires Mirrorable(i) && !Raises(i)
    ensures !Raises(MirrorInput(i)) && Reflected(i.pos.entry, Candidates(i), Candidates(MirrorInput(i)))
  {
    var m, e := MirrorInput(i), i.pos.entry;
    MirrorBeCandidates(i);
    MirrorBe70Candidates(i);
    MirrorTrailCandidates(i);
    assert Reflected(e, TimeCandidates(i), TimeCandidates(m)) by { MirrorTime(i); }
    ReflectedConcat(e, BeCandidates(i), BeCandidates(m), Be70Candidates(i), Be70Candidates(m));
    ReflectedConcat(e, BeCandidates(i) + Be70Candidates(i), BeCandidates(m) + Be70Candidates(m),
                    TrailCandidates(i), TrailCandidates(m));
    ReflectedConcat(e, BeCandidates(i) + Be70Candidates(i) + TrailCandidates(i),
                    BeCandidates(m) + Be70Candidates(m) + TrailCandidates(m),
                    TimeCandidates(i), TimeCandidates(m));
  }

  lemma {:induction false} MirrorSettle(side: Side, e: real, sl: real, cs: seq<real>, ms: seq<real>)
    requires BothPositive(e, sl) && Reflected(e, cs, ms)
    ensures var r := Mirror(e, sl);
            Settle(Flip(side), r, r, ms) == Mirror(e, Settle(side, sl, sl, cs))
  {
    if cs != [] {
      MirrorSettle(side, e, sl, cs[..|cs| - 1], ms[..|cs| - 1]);
    }
  }

  lemma MirrorSettled(i: Input)
    requires Mirrorable(i) && !Raises(i) && !Raises(MirrorInput(i))
    ensures Settled(MirrorInput(i)) == Mirror(i.pos.entry, Settled(i))
  {
    MirrorCandidates(i);
    MirrorSettle(i.pos.side, i.pos.entry, i.pos.sl, Candidates(i), Candidates(MirrorInput(i)));
  }

  lemma MirrorReturned(side: Side, e: real, sl: real, s: real)
    requires BothPositive(e, sl)
    ensures Returned(Flip(side), Mirror(e, sl), Mirror(e, s)) == MirrorOpt(e, Returned(side, sl, s))
  {}

  lemma MirrorFlags(i: Input)
    requires Mirrorable(i) && !Raises(i) && !Raises(MirrorInput(i))
    ensures var r, q := FinalRow(MirrorInput(i)), FinalRow(i);
            && r.breakEven == q.breakEven && r.bePctFired == q.bePctFired && r.trailing == q.trailing
            && r.trailDistance == q.trailDistance
  {
    hide Tightened, Round, Be70Dist, MirrorInput, Mirrorable, BePctHit, BeMoves, BeFires, BeStop, Be70Fires,
      TrailArmed, PartialTrailFires, Tracked, Clamped, TrailDist, Raises, TrailStop;
    ArmedHasDistance(i);
    MirrorBe70Dist(i);
    MirrorKeeps(i);
    MirrorBreakEven(i);
    MirrorBe70(i);
    MirrorTrailArmed(i);
    MirrorTrailStop(i);
    TrackedKeeps(i);
    TrackedKeeps(MirrorInput(i));
  }

  lemma ArmedHasDistance(i: Input)
    requires !Raises(i)
    ensures TrailArmed(i) || PartialTrailFires(i) ==> TrailDist(i).Some?
  {}

  lemma MirrorBe70Dist(i: Input)
    ensures Be70Dist(MirrorInput(i)) == Be70Dist(i)
  {}

  lemma TrackedKeeps(i: Input)
    ensures var t := Tracked(i);
            && t.breakEven == i.row.breakEven && t.bePctFired == i.row.bePctFired && t.trailing == i.row.trailing
            && t.trailDistance == i.row.trailDistance
  {}

  /** Reflecting every price about entry and swapping BUY with SELL reflects the
      stop, and reflects the row: its flags, trail distance and MFE/MAE are
      unchanged. */
  lemma ManagedIsMirrorSymmetric(i: Input)
    requires Mirrorable(i)
    ensures var m, out := Managed(MirrorInput(i)), Managed(i);
            && m.Raised? == out.Raised?
            && (out.Done? ==> m.sl == MirrorOpt(i.pos.entry, out.sl) && m.row == MirrorRow(i.pos.entry, out.row))
  {
    assert Raises(MirrorInput(i)) == Raises(i) by { MirrorTrailStop(i); }
    if !Raises(i) {
      MirrorSettled(i);
      MirrorReturned(i.pos.side, i.pos.entry, i.pos.sl, Settled(i));
      MirrorTracked(i);
      MirrorFlags(i);
    }
  }

  // ----- Where the action lists are not mirrored -----------------------------------

  /** The trail forced on the runner after a partial moves the stop. */
  predicate ForcedTrailMoves(i: Input)
    requires !Raises(i)
  {
    PartialTrailFires(i) && Replaces(i.pos.side, i.pos.sl, BeforeTrail(i), TrailOffer(i))
  }

  lemma MirrorReplaces(side: Side, e: real, sl: real, cur: real, c: real)
    requires BothPositive(e, sl)
    ensures Replaces(Flip(side), Mirror(e, sl), Mirror(e, cur), Mirror(e, c)) == Replaces(side, sl, cur, c)
  {}

  lemma MirrorBeforeTrail(i: Input)
    requires Mirrorable(i)
    ensures BeforeTrail(MirrorInput(i)) == Mirror(i.pos.entry, BeforeTrail(i))
  {
    hide BeCandidates, Be70Candidates;
    var m, e := MirrorInput(i), i.pos.entry;
    MirrorBeCandidates(i);
    MirrorBe70Candidates(i);
    ReflectedConcat(e, BeCandidates(i), BeCandidates(m), Be70Candidates(i), Be70Candidates(m));
    MirrorSettle(i.pos.side, e, i.pos.sl, BeCandidates(i) + Be70Candidates(i), BeCandidates(m) + Be70Candidates(m));
  }

  lemma MirrorBeforeTime(i: Input)
    requires Mirrorable(i) && !Raises(i) && !Raises(MirrorInput(i))
    ensures BeforeTime(MirrorInput(i)) == Mirror(i.pos.entry, BeforeTime(i))
  {
    hide BeCandidates, Be70Candidates, TrailCandidates, Raises;
    var m, e := MirrorInput(i), i.pos.entry;
    MirrorBeCandidates(i);
    MirrorBe70Candidates(i);
    MirrorTrailCandidates(i);
    ReflectedConcat(e, BeCandidates(i), BeCandidates(m), Be70Candidates(i), Be70Candidates(m));
    ReflectedConcat(e, BeCandidates(i) + Be70Candidates(i), BeCandidates(m) + Be70Candidates(m),
                    TrailCandidates(i), TrailCandidates(m));
    MirrorSettle(i.pos.side, e, i.pos.sl, BeCandidates(i) + Be70Candidates(i) + TrailCandidates(i),
                 BeCandidates(m) + Be70Candidates(m) + TrailCandidates(m));
  }

  lemma MirrorTimeActions(i: Input)
    requires Mirrorable(i) && !Raises(i) && !Raises(MirrorInput(i))
    ensures TimeActions(MirrorInput(i)) == TimeActions(i)
  {
    hide TimeStop, BeforeTime, Raises, Replaces, RiskSl;
    var m, e := MirrorInput(i), i.pos.entry;
    MirrorTime(i);
    MirrorBeforeTime(i);
    if TimeFires(i) { MirrorReplaces(i.pos.side, e, i.pos.sl, BeforeTime(i), TimeStop(i)); }
  }

  lemma MirrorEarlyActions(i: Input)
    requires Mirrorable(i)
    ensures BeActions(MirrorInput(i)) == BeActions(i) && Be70Actions(MirrorInput(i)) == Be70Actions(i)
  {
    hide BeMoves, Be70Fires;
    MirrorBreakEven(i);
    MirrorBe70(i);
  }

  lemma MirrorForcedTrail(i: Input)
    requires Mirrorable(i) && !Raises(i) && !Raises(MirrorInput(i)) && PartialTrailFires(i)
    ensures TrailCandidates(i) == [TrailOffer(i)] && TrailCandidates(MirrorInput(i)) == [TrailOffer(MirrorInput(i))]
    ensures TrailOffer(MirrorInput(i)) == Mirror(i.pos.entry, TrailOffer(i))
  {
    hide TrailArmed, TrailDist, Peak;
    MirrorTrailArmed(i);
    MirrorTrailStop(i);
    MirrorPrices(i);
  }

  lemma MirrorTrailActions(i: Input)
    requires Mirrorable(i) && !Raises(i) && !Raises(MirrorInput(i))
    ensures TrailActions(MirrorInput(i)) == TrailActions(i) <==> !ForcedTrailMoves(i)
    ensures ForcedTrailMoves(i) ==> |TrailActions(i)| + |TrailActions(MirrorInput(i))| == 1
  {
    hide TrailArmed, Be70Fires, BeMoves, BeforeTrail, TrailOffer, TrailCandidates, Clamped, Replaces, Tightened;
    var m, e := MirrorInput(i), i.pos.entry;
    MirrorTrailArmed(i);
    MirrorTrailStop(i);
    MirrorBreakEven(i);
    MirrorBe70(i);
    if PartialTrailFires(i) {
      MirrorForcedTrail(i);
      MirrorBeforeTrail(i);
      MirrorReplaces(i.pos.side, e, i.pos.sl, BeforeTrail(i), TrailOffer(i));
      assert TrailActions(i) == if i.pos.side == Sell && ForcedTrailMoves(i) then [TrailAfterPartial] else [];
      assert TrailActions(m) == if m.pos.side == Sell && ForcedTrailMoves(i) then [TrailAfterPartial] else [];
    } else if TrailArmed(i) {
      ArmedHasDistance(i);
      assert TrailActions(m) == TrailActions(i);
    }
  }

  /** The action lists of an input and its mirror image are equal exactly when the
      trail forced on a runner does not move the stop: that move is logged for a
      SELL only. */
  lemma ActionsAreMirroredIff(i: Input)
    requires Mirrorable(i) && !Raises(i)
    ensures !Raises(MirrorInput(i)) && (Actions(MirrorInput(i)) == Actions(i) <==> !ForcedTrailMoves(i))
  {
    MirrorTrailStop(i);
    hide BeActions, Be70Actions, TrailActions, TimeActions, ForcedTrailMoves, Raises, Mirrorable, MirrorInput;
    var m := MirrorInput(i);
    MirrorEarlyActions(i);
    MirrorTrailActions(i);
    MirrorTimeActions(i);
    var early := BeActions(i) + Be70Actions(i);
    assert |Actions(i)| == |early| + |TrailActions(i)| + |TimeActions(i)|;
    assert |Actions(m)| == |early| + |TrailActions(m)| + |TimeActions(i)|;
  }

  /** Trailing one ATR behind the peak, not yet armed. */
  const UNARMED_TRAIL: Cfg :=
    var never := Trigger(None, None, 1000.0);
    Cfg(BreakEvenCfg(false, 0.0, never, None, None, 0.0, 0.0), AdaptiveCfg(false, 0.0, 0.0),
        TrailCfg(true, TrailSpec(None, None, 1.0), never, DeferCfg(false, 0.0, false, None)),
        TimeCfg(false, 0.0, 0.0, false, 0.0, 0.0), RunnerCfg(0.35, 0.15, 1.0, true), false)

  function Runner(side: Side): Input {
    Input(UNARMED_TRAIL, Position(side, 100.0, if side == Buy then 99.0 else 101.0, 0.0, 0.0, 1.0),
          Quote(if side == Buy then 102.0 else 98.0, 1.0, None, None, 0.0), FRESH_ROW.(partialDone := true))
  }

  lemma RunnerOffers(side: Side)
    ensures var i, sl := Runner(side), if side == Buy then 99.0 else 101.0;
            && !Raises(i) && PartialTrailFires(i) && BeforeTrail(i) == sl
            && TrailCandidates(i) == [if side == Buy then 101.0 else 99.0]
            && BeActions(i) == [] && Be70Actions(i) == [] && TimeActions(i) == []
  {
    var i := Runner(side);
    assert TrailDist(i) == Some(1.0) && !TrailArmed(i);
    assert BeCandidates(i) == [] && Be70Candidates(i) == [];
    assert BeCandidates(i) + Be70Candidates(i) == [];
  }

  /** A runner two points in profit: the SELL logs its forced trail, its mirror image
      the BUY does not. */
  lemma ForcedTrailIsLoggedForSellOnly()
    ensures var buy, sell := Runner(Buy), Runner(Sell);
            && Mirrorable(sell) && MirrorInput(sell) == buy && !Raises(buy) && !Raises(sell)
            && Actions(sell) == [TrailAfterPartial] && Actions(buy) == []
  {
    RunnerOffers(Buy);
    RunnerOffers(Sell);
    hide BeforeTrail, TrailCandidates, PartialTrailFires, BeActions, Be70Actions, TimeActions, Raises;
    var buy, sell := Runner(Buy), Runner(Sell);
    assert TrailActions(sell) == [TrailAfterPartial] && TrailActions(buy) == [];
  }
}
