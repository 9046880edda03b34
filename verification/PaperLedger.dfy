/** The paper broker's step: fills, then exits, then the cash ledger
    (process_approved_signals in core/paper_broker.py). */
module PaperLedger {
  import opened Numbers
  import opened ExitManager
  import opened PaperBroker

  /** One recorded trade; `at` is the step that recorded it. */
  datatype Trade = Trade(id: nat, pnl: real, partial: bool, at: nat)

  datatype Market = Market(prices: map<string, real>, bars: map<string, Bar>)

  /** An approved signal with the verdict of the entry gates and the capped size. */
  datatype Candidate = Candidate(
    symbol: string, side: Side, limitOrder: bool, entry: real, sl: real, tp1: real, tp2: real,
    admitted: bool, size: real)

  /** Everything a step reads and writes.  Fresh position ids are counted up. */
  datatype Book = Book(
    cash: real, equity: real, positions: seq<Position>, trades: seq<Trade>, nextId: nat, clock: nat)

  type Config = string -> SymbolCfg

  function PriceOf(mk: Market, symbol: string, otherwise: real): real {
    if symbol in mk.prices then mk.prices[symbol] else otherwise
  }

  function QuoteFor(mk: Market, p: Position): Quote {
    Quote(PriceOf(mk, p.symbol, p.entry), if p.symbol in mk.bars then Some(mk.bars[p.symbol]) else None)
  }

  function OutcomeOf(cfg: Config, mk: Market, p: Position): Outcome {
    ExitStep(cfg(p.symbol), p, QuoteFor(mk, p))
  }

  /** Checking the position raises. */
  predicate Throws(cfg: Config, mk: Market, p: Position) { Raises(cfg(p.symbol), p, QuoteFor(mk, p)) }

  predicate AnyThrows(cfg: Config, mk: Market, ps: seq<Position>) {
    exists i :: 0 <= i < |ps| && Throws(cfg, mk, ps[i])
  }

  // ----- The exit pass over the book, as functions of the position list ---------

  /** The positions as the pass leaves their records. */
  function Touched(cfg: Config, mk: Market, ps: seq<Position>): seq<Position> {
    if ps == [] then []
    else
      var n := |ps| - 1;
      Touched(cfg, mk, ps[..n]) + [OutcomeOf(cfg, mk, ps[n]).pos]
  }

  function Closed(cfg: Config, mk: Market, ps: seq<Position>): set<nat> {
    if ps == [] then {}
    else
      var n := |ps| - 1;
      Closed(cfg, mk, ps[..n]) + if OutcomeOf(cfg, mk, ps[n]).Close? then {ps[n].id} else {}
  }

  function TradeOf(p: Position, o: Outcome, at: nat): seq<Trade> {
    if o.Hold? then [] else [Trade(p.id, Round2(Cash(p, o)), o.Partial?, at)]
  }

  function NewTrades(cfg: Config, mk: Market, ps: seq<Position>, at: nat): seq<Trade> {
    if ps == [] then []
    else
      var n := |ps| - 1;
      NewTrades(cfg, mk, ps[..n], at) + TradeOf(ps[n], OutcomeOf(cfg, mk, ps[n]), at)
  }

  function Realised(cfg: Config, mk: Market, ps: seq<Position>): real {
    if ps == [] then 0.0
    else
      var n := |ps| - 1;
      Realised(cfg, mk, ps[..n]) + Cash(ps[n], OutcomeOf(cfg, mk, ps[n]))
  }

  function Without(ps: seq<Position>, ids: set<nat>): seq<Position> {
    if ps == [] then []
    else
      var n := |ps| - 1;
      if ps[n].id in ids then Without(ps[..n], ids) else Without(ps[..n], ids) + [ps[n]]
  }

  function OpenPnl(mk: Market, p: Position): real { Pnl(p, PriceOf(mk, p.symbol, p.entry), p.size) }

  function Unrealised(mk: Market, ps: seq<Position>): real {
    if ps == [] then 0.0
    else
      var n := |ps| - 1;
      Unrealised(mk, ps[..n]) + OpenPnl(mk, ps[n])
  }

  /** One more position in the pass. */
  lemma PassSnoc(cfg: Config, mk: Market, ps: seq<Position>, i: nat, at: nat)
    requires i < |ps|
    ensures var o := OutcomeOf(cfg, mk, ps[i]);
            && Touched(cfg, mk, ps[..i + 1]) == Touched(cfg, mk, ps[..i]) + [o.pos]
            && Closed(cfg, mk, ps[..i + 1]) == Closed(cfg, mk, ps[..i]) + (if o.Close? then {ps[i].id} else {})
            && NewTrades(cfg, mk, ps[..i + 1], at) == NewTrades(cfg, mk, ps[..i], at) + TradeOf(ps[i], o, at)
            && Realised(cfg, mk, ps[..i + 1]) == Realised(cfg, mk, ps[..i]) + Cash(ps[i], o)
  {
    hide OutcomeOf, TradeOf, Cash;
    assert ps[..i + 1][..i] == ps[..i];
  }

  lemma PassEmpty(cfg: Config, mk: Market, at: nat)
    ensures Touched(cfg, mk, []) == [] && Closed(cfg, mk, []) == {}
    ensures NewTrades(cfg, mk, [], at) == [] && Realised(cfg, mk, []) == 0.0
  {}

  // ----- Fills -------------------------------------------------------------------

  predicate ShouldFill(c: Candidate, price: real) {
    !c.limitOrder || if c.side == Buy then price <= c.entry else price >= c.entry
  }

  /** A missing or zero price skips the signal. */
  predicate Fills(mk: Market, c: Candidate) {
    var price := PriceOf(mk, c.symbol, c.entry);
    c.admitted && price != 0.0 && ShouldFill(c, price)
  }

  function Opened(mk: Market, c: Candidate, id: nat): Position {
    var fill := if c.limitOrder then c.entry else PriceOf(mk, c.symbol, c.entry);
    Position(id, c.symbol, c.side, fill, c.sl, c.tp1, c.tp2, c.size,
             if c.sl != 0.0 then Abs(fill - c.sl) / 1.5 else 0.0,
             false, false, false, fill, None, true, None)
  }

  function FillAll(b: Book, mk: Market, cs: seq<Candidate>): Book {
    if cs == [] then b
    else
      var f := FillAll(b, mk, cs[..|cs| - 1]);
      var c := cs[|cs| - 1];
      if Fills(mk, c) then f.(positions := f.positions + [Opened(mk, c, f.nextId)], nextId := f.nextId + 1) else f
  }

  /** The call raises instead of returning a book. */
  predicate CallRaises(cfg: Config, b: Book, mk: Market, cs: seq<Candidate>) {
    AnyThrows(cfg, mk, FillAll(b, mk, cs).positions)
  }

  /** Fills, then exits on old and new positions alike, then cash and equity; a call
      that raises leaves its caller with the book as it was. */
  function Next(cfg: Config, b: Book, mk: Market, cs: seq<Candidate>): Book {
    if CallRaises(cfg, b, mk, cs) then b else Settled(cfg, FillAll(b, mk, cs), mk)
  }

  function Settled(cfg: Config, f: Book, mk: Market): Book {
    var left := Without(Touched(cfg, mk, f.positions), Closed(cfg, mk, f.positions));
    var cash := f.cash + Realised(cfg, mk, f.positions);
    Book(cash, cash + Unrealised(mk, left), left, f.trades + NewTrades(cfg, mk, f.positions, f.clock),
         f.nextId, f.clock + 1)
  }

  // ----- What the pass leaves, without ids ---------------------------------------------

  /** The positions whose outcome was not a close. */
  function Survivors(cfg: Config, mk: Market, ps: seq<Position>): seq<Position> {
    if ps == [] then []
    else
      var n := |ps| - 1;
      var o := OutcomeOf(cfg, mk, ps[n]);
      Survivors(cfg, mk, ps[..n]) + if o.Close? then [] else [o.pos]
  }

  predicate DistinctIds(ps: seq<Position>) { forall i, j :: 0 <= i < j < |ps| ==> ps[i].id != ps[j].id }

  lemma ExitKeepsId(c: SymbolCfg, p: Position, q: Quote)
    ensures ExitStep(c, p, q).pos.id == p.id && ExitStep(c, p, q).pos.symbol == p.symbol
  {
    hide TrailMoves, TrailStop, BeArmed, BeLock, PostPartialSl, PartialCloseVolume;
  }

  lemma {:induction false} UnclosedSurvive(cfg: Config, mk: Market, ps: seq<Position>, extra: set<nat>)
    requires DistinctIds(ps) && forall i :: 0 <= i < |ps| ==> ps[i].id !in extra
    ensures Without(Touched(cfg, mk, ps), Closed(cfg, mk, ps) + extra) == Survivors(cfg, mk, ps)
  {
    hide ExitStep, QuoteFor;
    if ps != [] {
      var n := |ps| - 1;
      var o := OutcomeOf(cfg, mk, ps[n]);
      ExitKeepsId(cfg(ps[n].symbol), ps[n], QuoteFor(mk, ps[n]));
      var gone := if o.Close? then {ps[n].id} else {};
      UnclosedSurvive(cfg, mk, ps[..n], extra + gone);
      assert Closed(cfg, mk, ps) + extra == Closed(cfg, mk, ps[..n]) + (extra + gone);
      var t := Touched(cfg, mk, ps[..n]);
      assert (t + [o.pos])[..|t|] == t;
      if !o.Close? { ClosedAreListed(cfg, mk, ps[..n]); }
    }
  }

  lemma {:induction false} ClosedAreListed(cfg: Config, mk: Market, ps: seq<Position>)
    ensures forall id :: id in Closed(cfg, mk, ps) ==> exists i :: 0 <= i < |ps| && ps[i].id == id
  {
    hide OutcomeOf;
    if ps != [] {
      var n := |ps| - 1;
      ClosedAreListed(cfg, mk, ps[..n]);
      forall id | id in Closed(cfg, mk, ps) ensures exists i :: 0 <= i < |ps| && ps[i].id == id {
        if id in Closed(cfg, mk, ps[..n]) {
          var i :| 0 <= i < n && ps[..n][i].id == id;
          assert ps[i].id == id;
        } else {
          assert ps[n].id == id;
        }
      }
    }
  }

  /** With distinct ids, removing the closed ids leaves exactly the survivors. */
  lemma RemovalLeavesSurvivors(cfg: Config, mk: Market, ps: seq<Position>)
    requires DistinctIds(ps)
    ensures Without(Touched(cfg, mk, ps), Closed(cfg, mk, ps)) == Survivors(cfg, mk, ps)
  {
    UnclosedSurvive(cfg, mk, ps, {});
    assert Closed(cfg, mk, ps) + {} == Closed(cfg, mk, ps);
  }

  // ----- The broker ----------------------------------------------------------------

  class Broker {
    const cfg: Config
    var cash: real
    var equity: real
    var positions: seq<Position>
    var trades: seq<Trade>
    var nextId: nat
    var clock: nat

    constructor (cfg: Config, startingCash: real)
      ensures this.cfg == cfg && Contents() == Book(startingCash, startingCash, [], [], 0, 0)
    {
      this.cfg, cash, equity := cfg, startingCash, startingCash;
      positions, trades, nextId, clock := [], [], 0, 0;
    }

    function Contents(): Book
      reads this
    {
      Book(cash, equity, positions, trades, nextId, clock)
    }

    method UnrealizedPnl(ps: seq<Position>, mk: Market) returns (total: real)
      ensures total == Unrealised(mk, ps)
    {
      total := 0.0;
      for i := 0 to |ps|
        invariant total == Unrealised(mk, ps[..i])
      {
        assert ps[..i + 1][..i] == ps[..i];
        total := total + OpenPnl(mk, ps[i]);
      }
      assert ps[..|ps|] == ps;
    }

    method CheckOne(mk: Market, p: Position) returns (raised: bool, o: Outcome)
      ensures raised == Throws(cfg, mk, p)
      ensures !raised ==> o == OutcomeOf(cfg, mk, p)
    {
      hide ExitStep, Raises;
      raised, o := CheckPosition(cfg(p.symbol), p, QuoteFor(mk, p));
    }

    /** Updates every position record in turn; reports closed ids, trades and cash. */
    method CheckExits(ps: seq<Position>, mk: Market)
      returns (raised: bool, now: seq<Position>, closed: set<nat>, made: seq<Trade>, realized: real)
      ensures raised == AnyThrows(cfg, mk, ps)
      ensures !raised ==> now == Touched(cfg, mk, ps) && closed == Closed(cfg, mk, ps)
      ensures !raised ==> made == NewTrades(cfg, mk, ps, clock) && realized == Realised(cfg, mk, ps)
    {
      hide OutcomeOf, Cash, TradeOf, Touched, Closed, NewTrades, Realised, Throws;
      raised, now, closed, made, realized := false, [], {}, [], 0.0;
      PassEmpty(cfg, mk, clock);
      for i := 0 to |ps|
        invariant !raised && forall k :: 0 <= k < i ==> !Throws(cfg, mk, ps[k])
        invariant now == Touched(cfg, mk, ps[..i]) && closed == Closed(cfg, mk, ps[..i])
        invariant made == NewTrades(cfg, mk, ps[..i], clock) && realized == Realised(cfg, mk, ps[..i])
      {
        PassSnoc(cfg, mk, ps, i, clock);
        var p, o := ps[i], Hold(ps[i]);
        raised, o := CheckOne(mk, p);
        if raised { return; }
        now := now + [o.pos];
        realized := realized + Cash(p, o);
        made := made + TradeOf(p, o, clock);
        if o.Close? { closed := closed + {p.id}; }
      }
      assert ps[..|ps|] == ps;
    }

    method Remove(ps: seq<Position>, ids: set<nat>) returns (kept: seq<Position>)
      ensures kept == Without(ps, ids)
    {
      kept := [];
      for i := 0 to |ps|
        invariant kept == Without(ps[..i], ids)
      {
        assert ps[..i + 1][..i] == ps[..i];
        if ps[i].id !in ids { kept := kept + [ps[i]]; }
      }
      assert ps[..|ps|] == ps;
    }

    method FillOrders(mk: Market, cs: seq<Candidate>) returns (ps: seq<Position>, id: nat)
      ensures Contents().(positions := ps, nextId := id) == FillAll(Contents(), mk, cs)
    {
      hide Fills, Opened;
      ps, id := positions, nextId;
      for i := 0 to |cs|
        invariant Contents().(positions := ps, nextId := id) == FillAll(Contents(), mk, cs[..i])
      {
        assert cs[..i + 1][..i] == cs[..i];
        if Fills(mk, cs[i]) { ps, id := ps + [Opened(mk, cs[i], id)], id + 1; }
      }
      assert cs[..|cs|] == cs;
    }

    /** One call; the new book is stored only when nothing raised. */
    method ProcessApprovedSignals(mk: Market, cs: seq<Candidate>) returns (raised: bool)
      modifies this
      ensures raised == CallRaises(cfg, old(Contents()), mk, cs)
      ensures Contents() == Next(cfg, old(Contents()), mk, cs)
    {
      hide Touched, Closed, NewTrades, Realised, Without, Unrealised, FillAll, AnyThrows;
      var ps, id := FillOrders(mk, cs);
      var now, closed, made, realized;
      raised, now, closed, made, realized := CheckExits(ps, mk);
      if raised { return; }
      positions := Remove(now, closed);
      nextId, trades, cash := id, trades + made, cash + realized;
      var open := UnrealizedPnl(positions, mk);
      equity, clock := cash + open, clock + 1;
    }
  }
}
