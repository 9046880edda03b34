/** What the paper broker does with prices: when a position is stopped, banked,
    moved and closed, and what the account is worth, on prices, distances and
    configured numbers alone. */
module PaperLaws {
  import opened Numbers
  import opened ExitManager
  import opened TriggerLaws
  import opened PaperBroker
  import opened PaperLedger

  // ----- Prices of one step -----------------------------------------------------

  /** The step's best price for the position: its bar's extreme, once it is older than
      the step and a bar is known. */
  function BestPrice(p: Position, q: Quote): real {
    if q.bar.Some? && !p.justOpened
    then (match p.side case Buy => q.bar.value.high case Sell => q.bar.value.low)
    else q.close
  }

  function WorstPrice(p: Position, q: Quote): real {
    if q.bar.Some? && !p.justOpened
    then (match p.side case Buy => q.bar.value.low case Sell => q.bar.value.high)
    else q.close
  }

  /** The worst price has come to a stop. */
  predicate Reaches(p: Position, q: Quote, stop: real) {
    match p.side case Buy => WorstPrice(p, q) <= stop case Sell => WorstPrice(p, q) >= stop
  }

  /** The best price has come to a target. */
  predicate Attains(p: Position, q: Quote, target: real) {
    match p.side case Buy => BestPrice(p, q) >= target case Sell => BestPrice(p, q) <= target
  }

  /** c protects more than sl. */
  predicate ProtectsMore(side: Side, c: real, sl: real) { match side case Buy => c > sl case Sell => c < sl }

  lemma PricesAre(p: Position, q: Quote)
    ensures Favourable(p, q) == BestPrice(p, q) && Adverse(p, q) == WorstPrice(p, q)
    ensures Gain(p, q) == MoveOf(p.side, p.entry, BestPrice(p, q))
    ensures forall s :: Hit(p.side, Adverse(p, q), s) <==> Reaches(p, q, s)
    ensures forall a, b :: Tighter(p.side, a, b) <==> ProtectsMore(p.side, a, b)
  {}

  /** The volatility a position is managed with: its own, else two thirds of its stop
      distance. */
  predicate IsAtr(p: Position, a: real) {
    if p.atr != 0.0 then a == p.atr else a * 1.5 == if p.entry >= p.sl then p.entry - p.sl else p.sl - p.entry
  }

  lemma AtrIs(p: Position, a: real)
    requires IsAtr(p, a)
    ensures Atr(p) == a
  {}

  // ----- The stop stands first ---------------------------------------------------

  function ReasonOf(p: Position): Reason {
    match (p.trailActive, p.beTriggered)
    case (true, _) => TrailingStop
    case (false, true) => BreakEvenStop
    case (false, false) => StopLoss
  }

  /** A position whose stop is reached closes there, whatever else the step's prices
      reach; the level is the one from before the step. */
  lemma StopStandsFirst(c: SymbolCfg, p: Position, q: Quote)
    requires Reaches(p, q, p.sl)
    ensures !Raises(c, p, q) && ExitStep(c, p, q) == Close(p.(justOpened := false), p.sl, ReasonOf(p))
  {
    PricesAre(p, q);
    hide Managed, PartialFires, Hit, Adverse, Reaches;
  }

  // ----- The partial --------------------------------------------------------------

  /** TP1 is attained and the partial takes a volume v. */
  predicate Banks(c: SymbolCfg, p: Position, q: Quote, v: real) {
    && c.partialEnabled && !p.partialDone && p.tp1 > 0.0 && Attains(p, q, p.tp1)
    && v == PartialCloseVolume(p.size, c.fraction, c.minRemain) && v > 0.0
  }

  lemma BanksIff(c: SymbolCfg, p: Position, q: Quote)
    ensures PartialFires(c, p, q) <==> Banks(c, p, q, PartialCloseVolume(p.size, c.fraction, c.minRemain))
  {
    PricesAre(p, q);
    hide PartialCloseVolume, Favourable, BestPrice;
  }

  /** The stop that the initial risk of an open position is measured from. */
  function Risked(p: Position): real {
    if p.initialSl.Some? && p.initialSl.value != 0.0 then p.initialSl.value else p.sl
  }

  /** The first attained TP1 of an unstopped position banks v there; the runner's stop
      is at entry plus the lock k, and it aims at TP2 where there is one. */
  lemma PartialAtTp1(c: SymbolCfg, p: Position, q: Quote, v: real, a: real, k: real)
    requires !Reaches(p, q, p.sl) && Banks(c, p, q, v) && IsAtr(p, a)
    requires IsRunnerLock(RiskOf(p.side, p.entry, Risked(p)), a, c.run, k)
    ensures !Raises(c, p, q)
    ensures var o := ExitStep(c, p, q);
            && o.Partial? && o.exit == p.tp1 && o.volume == v && o.pos.size == Round2(p.size - v)
            && o.pos.sl == BeyondOf(p.side, p.entry, k) && o.pos.partialDone && o.pos.beTriggered
            && o.pos.tp1 == (if p.tp2 != 0.0 then p.tp2 else p.tp1) && o.pos.entry == p.entry && o.pos.side == p.side
  {
    PricesAre(p, q);
    BanksIff(c, p, q);
    AtrIs(p, a);
    assert RiskSl(Advanced(c, p, q), p.sl) == Risked(p) by { hide BeArmed, BeLock, Tightest, Favourable; }
    RunnerLockIs(p.entry, Risked(p), p.side, a, c.run, k);
    hide PostPartialSl, PartialCloseVolume, Reaches, Hit, Adverse, Favourable, Atr, RiskSl, BeArmed, BeLock,
      Tightest, Round, Managed, IsAtr, IsRunnerLock;
  }

  // ----- Break-even and the trail ----------------------------------------------------

  /** The lock of a break-even move: in points, in USD where its trigger was met, else
      an ATR multiple. */
  predicate IsBreakEvenLock(c: SymbolCfg, p: Position, a: real, k: real) {
    var b, known := c.be, c.be.lockPoints.Some? && c.point.Some? && c.point.value > 0.0;
    if !known && UsdReached(b.trigger.usd, p.profitUsd) && b.lockUsd.Some?
    then k == (if b.lockUsd.value > 0.0 then b.lockUsd.value else 0.0)
    else IsDistance(b.lockPoints, b.lockAtrMult, a, c.point, k)
  }

  /** Break-even is due: it moved before, or its trigger at distance d is met. */
  predicate BreakEvenDue(c: SymbolCfg, p: Position, q: Quote, a: real, d: real) {
    && c.be.enabled && a > 0.0
    && (p.beTriggered || UsdReached(c.be.trigger.usd, p.profitUsd) || MoveOf(p.side, p.entry, BestPrice(p, q)) >= d)
  }

  /** After break-even: the stop is at entry plus k where that is due and protects more;
      the best price and the initial stop are recorded. */
  lemma BreakEvenMoves(c: SymbolCfg, p: Position, q: Quote, a: real, d: real, k: real)
    requires IsAtr(p, a) && IsBreakEvenLock(c, p, a, k)
    requires IsDistance(c.be.trigger.points, c.be.trigger.atrMult, a, c.point, d)
    ensures var moved, now := Advanced(c, p, q), BestPrice(p, q);
            var lock := BeyondOf(p.side, p.entry, k);
            var moves := BreakEvenDue(c, p, q, a, d) && ProtectsMore(p.side, lock, p.sl);
            && moved.sl == (if moves then lock else p.sl) && moved.beTriggered == (p.beTriggered || moves)
            && moved.peak == (if ProtectsMore(p.side, now, p.peak) then now else p.peak)
            && moved.initialSl == Some(if p.initialSl.Some? then p.initialSl.value else p.sl)
            && moved == p.(justOpened := false, peak := moved.peak, sl := moved.sl, beTriggered := moved.beTriggered,
                           initialSl := moved.initialSl)
  {
    PricesAre(p, q);
    AtrIs(p, a);
    TriggerIff(p.profitUsd, Gain(p, q), c.be.trigger, a, c.point, d);
    LockIs(c, p, a, k);
    hide TriggerMet, BeLockDistance, Favourable, BestPrice, Gain, IsAtr, IsBreakEvenLock, IsDistance, Tighter,
      ProtectsMore, UsdReached;
  }

  lemma LockIs(c: SymbolCfg, p: Position, a: real, k: real)
    requires Atr(p) == a && IsBreakEvenLock(c, p, a, k)
    ensures BeLockDistance(c, p) == k
  {
    hide Atr;
  }

  /** The trail is due at activation distance d. */
  predicate TrailDue(c: SymbolCfg, p: Position, q: Quote, a: real, d: real) {
    && c.trail.enabled && a > 0.0
    && (p.trailActive
        || Arms(MoveOf(p.side, p.entry, BestPrice(p, q)), RiskOf(p.side, p.entry, Risked(p)), p.partialDone,
                p.profitUsd, c.trail.activation.usd, d, c.trail.defer))
  }

  /** The stop `behind` the best price ever seen, once the step is counted. */
  function BehindBest(p: Position, q: Quote, behind: real): real {
    var now := BestPrice(p, q);
    BeyondOf(p.side, if ProtectsMore(p.side, now, p.peak) then now else p.peak, -behind)
  }

  /** The trail's own distance, tightened once a partial was taken. */
  predicate IsTrailing(c: SymbolCfg, p: Position, a: real, behind: real) {
    var d := TrailDistance(c.trail.spec, a, c.point);
    d.Some? && behind == if p.partialDone then d.value * c.run.tightenMult else d.value
  }

  lemma OffsetIs(c: SymbolCfg, p: Position, a: real, behind: real)
    requires Atr(p) == a && IsTrailing(c, p, a, behind)
    ensures TrailOffset(c, p) == Some(behind)
  {
    hide TrailDistance, Atr;
    var d := TrailDistance(c.trail.spec, a, c.point).value;
    SameProduct(d, TightenMultiplier(p.partialDone, c.run), if p.partialDone then c.run.tightenMult else 1.0);
    assert d * 1.0 == d;
    var x := TrailOffset(c, p).value;
    assert x == behind;
  }

  lemma TrailDueIff(c: SymbolCfg, p: Position, q: Quote, a: real, d: real)
    requires IsAtr(p, a) && IsDistance(c.trail.activation.points, c.trail.activation.atrMult, a, c.point, d)
    ensures TrailArmed(c, p, q) <==> TrailDue(c, p, q, a, d)
  {
    PricesAre(p, q);
    AtrIs(p, a);
    var sl := RiskSl(Advanced(c, p, q), p.sl);
    assert sl == Risked(p) by { hide BeArmed, BeLock, Tightest, Favourable; }
    ActivationIff(p.side, p.entry, sl, BestPrice(p, q), p.trailActive, p.partialDone, p.profitUsd, c.trail.activation,
                  c.trail.defer, a, c.point, d);
    hide Advanced, RiskSl, Risked, TrailActivationAllowed, ProfitRr, Arms, Favourable, BestPrice, Gain, IsAtr, Atr,
      IsDistance, Tighter, ProtectsMore;
  }

  /** After the trail: a due trail moves the stop behind the best price where that
      protects more, and is active from then on. */
  lemma TrailFollows(c: SymbolCfg, p: Position, q: Quote, a: real, d: real, behind: real)
    requires IsAtr(p, a) && IsTrailing(c, p, a, behind)
    requires IsDistance(c.trail.activation.points, c.trail.activation.atrMult, a, c.point, d)
    ensures !Raises(c, p, q)
    ensures var before, stop := Advanced(c, p, q), BehindBest(p, q, behind);
            Managed(c, p, q) == if TrailDue(c, p, q, a, d) && ProtectsMore(p.side, stop, before.sl)
                                then before.(sl := stop, trailActive := true)
                                else before
  {
    AtrIs(p, a);
    TrailDueIff(c, p, q, a, d);
    OffsetIs(c, p, a, behind);
    PricesAre(p, q);
    var now := BestPrice(p, q);
    assert Advanced(c, p, q).peak == (if ProtectsMore(p.side, now, p.peak) then now else p.peak) by {
      hide BeArmed, BeLock, Favourable, BestPrice, Tighter, ProtectsMore;
    }
    hide Advanced, TrailArmed, TrailDue, TrailOffset, Tighter, ProtectsMore, StopFirst, PartialFires, Favourable,
      BestPrice, IsAtr, IsDistance, IsTrailing;
  }

  /** Where the trail is not due nothing raises and it moves nothing. */
  lemma NoTrail(c: SymbolCfg, p: Position, q: Quote, a: real, d: real)
    requires IsAtr(p, a) && !TrailDue(c, p, q, a, d)
    requires IsDistance(c.trail.activation.points, c.trail.activation.atrMult, a, c.point, d)
    ensures !Raises(c, p, q) && Managed(c, p, q) == Advanced(c, p, q)
  {
    TrailDueIff(c, p, q, a, d);
    hide Advanced, TrailArmed, TrailDue;
  }

  // ----- Targets ------------------------------------------------------------------------

  /** Neither stopped nor banked: the moved stop m.sl is tried next, if break-even or
      trailing stands behind it; then TP2 of a runner; then, where partials are off
      and no trail is active, TP1; else the position is held. */
  lemma ExitsAfterMoves(c: SymbolCfg, p: Position, q: Quote)
    requires !Reaches(p, q, p.sl) && !Banks(c, p, q, PartialCloseVolume(p.size, c.fraction, c.minRemain))
    ensures var m, o := Managed(c, p, q), ExitStep(c, p, q);
            if Reaches(p, q, m.sl) && (m.beTriggered || m.trailActive) then o == Close(m, m.sl, ReasonOf(m))
            else if p.partialDone && p.tp2 > 0.0 && Attains(p, q, p.tp2) then o == Close(m, p.tp2, TakeProfit)
            else if !c.partialEnabled && Attains(p, q, p.tp1) && !m.trailActive then o == Close(m, p.tp1, TakeProfit)
            else o == Hold(m)
  {
    PricesAre(p, q);
    BanksIff(c, p, q);
    hide Managed, PartialFires, PartialCloseVolume, Hit, Adverse, WorstPrice;
  }

  // ----- Money ------------------------------------------------------------------------------

  /** What a step realises: the move from entry to the exit price on the lots closed. */
  lemma RealisesTheMove(p: Position, o: Outcome)
    ensures Cash(p, o) == match o
                          case Hold(_) => 0.0
                          case Partial(_, exit, v) => MoveOf(p.side, p.entry, exit) * v
                          case Close(_, exit, _) => MoveOf(p.side, p.entry, exit) * p.size
  {}

  function PriceNow(mk: Market, p: Position): real { if p.symbol in mk.prices then mk.prices[p.symbol] else p.entry }

  /** What closing every position at its market price would realise. */
  function Liquidation(mk: Market, ps: seq<Position>): real {
    if ps == [] then 0.0
    else
      var p := ps[|ps| - 1];
      Liquidation(mk, ps[..|ps| - 1]) + Cash(p, Close(p, PriceNow(mk, p), StopLoss))
  }

  lemma {:induction false} UnrealisedIsLiquidation(mk: Market, ps: seq<Position>)
    ensures Unrealised(mk, ps) == Liquidation(mk, ps)
  {
    hide Pnl;
    if ps != [] { UnrealisedIsLiquidation(mk, ps[..|ps| - 1]); }
  }

  /** After every call that returns, equity is the cash that closing every open position
      at its market price would leave. */
  lemma EquityIsLiquidation(cfg: Config, b: Book, mk: Market, cs: seq<Candidate>)
    requires !CallRaises(cfg, b, mk, cs)
    ensures var n := Next(cfg, b, mk, cs); n.equity == n.cash + Liquidation(mk, n.positions)
  {
    hide FillAll, AnyThrows, Touched, Closed, NewTrades, Realised, Without, Unrealised, Liquidation;
    UnrealisedIsLiquidation(mk, Next(cfg, b, mk, cs).positions);
  }

  /** Lots long less lots short in a symbol. */
  function NetLots(ps: seq<Position>, symbol: string): real {
    if ps == [] then 0.0
    else
      var p := ps[|ps| - 1];
      NetLots(ps[..|ps| - 1], symbol)
      + if p.symbol != symbol then 0.0 else match p.side case Buy => p.size case Sell => -p.size
  }

  function Raised(mk: Market, symbol: string, rise: real): Market
    requires symbol in mk.prices
  {
    mk.(prices := mk.prices[symbol := mk.prices[symbol] + rise])
  }

  lemma RiseOfOne(mk: Market, p: Position, symbol: string, rise: real)
    requires symbol in mk.prices
    ensures OpenPnl(Raised(mk, symbol, rise), p)
         == OpenPnl(mk, p)
            + rise * (if p.symbol != symbol then 0.0 else match p.side case Buy => p.size case Sell => -p.size)
  {
    if p.symbol == symbol {
      var price := mk.prices[symbol];
      match p.side
      case Buy => Distribute(price + rise - p.entry, price - p.entry, p.size);
      case Sell => Distribute(p.entry - (price + rise), p.entry - price, p.size);
    }
  }

  /** A rise in a symbol's price raises the unrealised P&L by the rise on every lot
      long, and lowers it by that on every lot short. */
  lemma {:induction false} RiseMovesEquity(mk: Market, ps: seq<Position>, symbol: string, rise: real)
    requires symbol in mk.prices
    ensures Unrealised(Raised(mk, symbol, rise), ps) == Unrealised(mk, ps) + rise * NetLots(ps, symbol)
  {
    hide OpenPnl, Raised;
    if ps != [] {
      var before, p := ps[..|ps| - 1], ps[|ps| - 1];
      var lots := if p.symbol != symbol then 0.0 else match p.side case Buy => p.size case Sell => -p.size;
      RiseMovesEquity(mk, before, symbol, rise);
      RiseOfOne(mk, p, symbol, rise);
      assert rise * (NetLots(before, symbol) + lots) == rise * NetLots(before, symbol) + rise * lots;
    }
  }

  // ----- Fills ------------------------------------------------------------------------------

  /** The signal is admitted at a known price that is not 0; a limit order's market must
      be at least as good as its own price. */
  predicate FillsAtPrice(mk: Market, c: Candidate) {
    var price := if c.symbol in mk.prices then mk.prices[c.symbol] else c.entry;
    c.admitted && price != 0.0 && (c.limitOrder ==> MoveOf(c.side, price, c.entry) >= 0.0)
  }

  /** What fills, and the position that opens: a limit order at its own price, else at
      the market's. */
  lemma FillsByPrice(mk: Market, c: Candidate, id: nat)
    ensures Fills(mk, c) <==> FillsAtPrice(mk, c)
    ensures var price, p := if c.symbol in mk.prices then mk.prices[c.symbol] else c.entry, Opened(mk, c, id);
            && p.entry == (if c.limitOrder then c.entry else price) && p.peak == p.entry && p.id == id
            && p.symbol == c.symbol && p.side == c.side && p.sl == c.sl && p.tp1 == c.tp1 && p.tp2 == c.tp2
            && p.size == c.size && p.justOpened && !p.beTriggered && !p.trailActive && !p.partialDone
            && p.initialSl.None? && p.profitUsd.None?
            && p.atr * 1.5 == (if c.sl == 0.0 then 0.0 else if p.entry >= c.sl then p.entry - c.sl else c.sl - p.entry)
  {}

  /** The signals that fill, in order. */
  function Filling(mk: Market, cs: seq<Candidate>): seq<Candidate> {
    if cs == [] then [] else (if FillsAtPrice(mk, cs[0]) then [cs[0]] else []) + Filling(mk, cs[1..])
  }

  lemma {:induction false} FillingSnoc(mk: Market, cs: seq<Candidate>, c: Candidate)
    ensures Filling(mk, cs + [c]) == Filling(mk, cs) + if FillsAtPrice(mk, c) then [c] else []
  {
    hide FillsAtPrice;
    if cs == [] {
      assert (cs + [c])[1..] == [];
    } else {
      FillingSnoc(mk, cs[1..], c);
      assert (cs + [c])[1..] == cs[1..] + [c];
    }
  }

  lemma NoneFilling(mk: Market)
    ensures Filling(mk, []) == []
  {}

  /** A call's fills are appended to the book's positions in the order of the signals,
      under the next free ids; money and trades are untouched. */
  lemma {:induction false} FillsInOrder(b: Book, mk: Market, cs: seq<Candidate>)
    ensures var f, xs := FillAll(b, mk, cs), Filling(mk, cs);
            && f.nextId == b.nextId + |xs| && |f.positions| == |b.positions| + |xs|
            && f.positions[..|b.positions|] == b.positions
            && (forall i :: 0 <= i < |xs| ==> f.positions[|b.positions| + i] == Opened(mk, xs[i], b.nextId + i))
            && f == b.(positions := f.positions, nextId := f.nextId)
  {
    hide Fills, FillsAtPrice, Opened, Filling;
    if cs == [] {
      NoneFilling(mk);
    } else {
      var n := |cs| - 1;
      FillsInOrder(b, mk, cs[..n]);
      FillingSnoc(mk, cs[..n], cs[n]);
      FillsByPrice(mk, cs[n], 0);
      assert cs == cs[..n] + [cs[n]];
    }
  }

  // ----- Raising -----------------------------------------------------------------------------

  /** A step raises exactly where an unstopped, unbanked position's due trail is set in
      points and the point size is unknown. */
  lemma RaisesIff(c: SymbolCfg, p: Position, q: Quote, a: real, d: real)
    requires IsAtr(p, a) && IsDistance(c.trail.activation.points, c.trail.activation.atrMult, a, c.point, d)
    ensures Raises(c, p, q)
       <==> && !Reaches(p, q, p.sl) && !Banks(c, p, q, PartialCloseVolume(p.size, c.fraction, c.minRemain))
            && TrailDue(c, p, q, a, d) && c.trail.spec.pointsAtrMult.None? && c.trail.spec.points.Some?
            && !(c.point.Some? && c.point.value > 0.0)
  {
    PricesAre(p, q);
    BanksIff(c, p, q);
    AtrIs(p, a);
    TrailDueIff(c, p, q, a, d);
    TrailDistanceLaw(c.trail.spec, a, c.point);
    assert TrailOffset(c, p).None? <==> TrailDistance(c.trail.spec, a, c.point).None?;
    hide TrailDistance, TrailOffset, TrailArmed, TrailDue, Banks, PartialFires, Reaches, Hit, Adverse, Atr, IsAtr,
      IsDistance, NearestPoints;
  }

  /** The price and the bar a position is checked with. */
  function QuoteNow(mk: Market, p: Position): Quote {
    Quote(PriceNow(mk, p), if p.symbol in mk.bars then Some(mk.bars[p.symbol]) else None)
  }

  ghost predicate SomeRaises(cfg: Config, mk: Market, ps: seq<Position>) {
    exists i :: 0 <= i < |ps| && Raises(cfg(ps[i].symbol), ps[i], QuoteNow(mk, ps[i]))
  }

  lemma CheckedAtQuoteNow(cfg: Config, mk: Market, p: Position)
    ensures Throws(cfg, mk, p) <==> Raises(cfg(p.symbol), p, QuoteNow(mk, p))
    ensures OutcomeOf(cfg, mk, p) == ExitStep(cfg(p.symbol), p, QuoteNow(mk, p))
  {
    hide Raises, ExitStep;
    assert QuoteFor(mk, p) == QuoteNow(mk, p);
  }

  /** The call raises exactly where checking one of the positions does, filled in this
      call or before, each with its own symbol's configuration and prices. */
  lemma CallRaisesIff(cfg: Config, b: Book, mk: Market, cs: seq<Candidate>)
    ensures CallRaises(cfg, b, mk, cs) <==> SomeRaises(cfg, mk, FillAll(b, mk, cs).positions)
  {
    hide Raises, FillAll, Throws, QuoteNow, QuoteFor;
    var ps := FillAll(b, mk, cs).positions;
    forall i | 0 <= i < |ps| ensures Throws(cfg, mk, ps[i]) <==> Raises(cfg(ps[i].symbol), ps[i], QuoteNow(mk, ps[i])) {
      CheckedAtQuoteNow(cfg, mk, ps[i]);
    }
    if i :| 0 <= i < |ps| && Throws(cfg, mk, ps[i]) {}
    if i :| 0 <= i < |ps| && Raises(cfg(ps[i].symbol), ps[i], QuoteNow(mk, ps[i])) { assert Throws(cfg, mk, ps[i]); }
  }
}
