/** Whole runs of the paper broker: position lifecycle, cash conservation and the
    account's worst case. */
module PaperRunProofs {
  import opened Numbers
  import opened ExitManager
  import opened PaperBroker
  import opened PaperLedger
  import opened PaperLossProofs

  /** What one call of the broker is given. */
  datatype Input = Input(market: Market, approved: seq<Candidate>)

  function Start(cash: real): Book { Book(cash, cash, [], [], 0, 0) }

  function Run(cfg: Config, cash: real, ins: seq<Input>): Book {
    if ins == [] then Start(cash)
    else
      var i := ins[|ins| - 1];
      Next(cfg, Run(cfg, cash, ins[..|ins| - 1]), i.market, i.approved)
  }

  // ----- Lifecycle ------------------------------------------------------------------

  predicate Listed(ps: seq<Position>, id: nat) { exists i :: 0 <= i < |ps| && ps[i].id == id }

  predicate Finished(ts: seq<Trade>, id: nat) { exists i :: 0 <= i < |ts| && ts[i].id == id && !ts[i].partial }

  /** Every two trades of one position are its partial and, in a strictly later
      step, its final trade: at most one of each. */
  predicate PartialThenFinal(ts: seq<Trade>) {
    forall i, j :: 0 <= i < j < |ts| && ts[i].id == ts[j].id ==>
      ts[i].partial && !ts[j].partial && ts[i].at < ts[j].at
  }

  /** A filled position is open exactly when it has no final trade. */
  predicate OpenUntilFinal(b: Book) {
    forall id: nat :: id < b.nextId ==> (Listed(b.positions, id) <==> !Finished(b.trades, id))
  }

  predicate PartialsAreMarked(b: Book) {
    forall i, j :: 0 <= i < |b.positions| && 0 <= j < |b.trades| && b.trades[j].id == b.positions[i].id ==>
      b.positions[i].partialDone
  }

  predicate Numbered(b: Book) {
    && DistinctIds(b.positions)
    && (forall i :: 0 <= i < |b.positions| ==> b.positions[i].id < b.nextId)
    && (forall i :: 0 <= i < |b.trades| ==> b.trades[i].id < b.nextId && b.trades[i].at < b.clock)
  }

  predicate Lifecycle(b: Book) {
    Numbered(b) && PartialThenFinal(b.trades) && OpenUntilFinal(b) && PartialsAreMarked(b)
  }

  lemma FillKeepsLifecycle(b: Book, p: Position)
    requires Lifecycle(b) && p.id == b.nextId
    ensures Lifecycle(b.(positions := b.positions + [p], nextId := b.nextId + 1))
  {
    var b' := b.(positions := b.positions + [p], nextId := b.nextId + 1);
    forall id: nat | id < b'.nextId ensures Listed(b'.positions, id) <==> !Finished(b'.trades, id) {
      if id == p.id {
        assert b'.positions[|b.positions|].id == id;
      } else {
        assert Listed(b.positions, id) <==> !Finished(b.trades, id);
        if Listed(b.positions, id) {
          var i :| 0 <= i < |b.positions| && b.positions[i].id == id;
          assert b'.positions[i].id == id;
        }
      }
    }
  }

  lemma {:induction false} FillsKeepLifecycle(b: Book, mk: Market, cs: seq<Candidate>)
    requires Lifecycle(b)
    ensures Lifecycle(FillAll(b, mk, cs))
  {
    hide Lifecycle, Fills;
    if cs != [] {
      var n := |cs| - 1;
      FillsKeepLifecycle(b, mk, cs[..n]);
      var f := FillAll(b, mk, cs[..n]);
      if Fills(mk, cs[n]) { FillKeepsLifecycle(f, Opened(mk, cs[n], f.nextId)); }
    }
  }

  /** A step's trades come from distinct listed positions: a final trade from a
      close, a partial one from a position that had none. */
  ghost predicate TradesOfPass(cfg: Config, mk: Market, ps: seq<Position>, ts: seq<Trade>, at: nat) {
    && (forall i, j :: 0 <= i < j < |ts| ==> ts[i].id != ts[j].id)
    && (forall i :: 0 <= i < |ts| ==> ts[i].at == at && Source(cfg, mk, ps, ts[i]))
    && (forall k :: 0 <= k < |ps| && OutcomeOf(cfg, mk, ps[k]).Close? ==> Finished(ts, ps[k].id))
  }

  ghost predicate Source(cfg: Config, mk: Market, ps: seq<Position>, t: Trade) {
    exists k :: 0 <= k < |ps| && IsTradeOf(cfg, mk, ps[k], t)
  }

  predicate IsTradeOf(cfg: Config, mk: Market, p: Position, t: Trade) {
    var o := OutcomeOf(cfg, mk, p);
    p.id == t.id && !o.Hold? && t.partial == o.Partial?
  }

  lemma SourceStays(cfg: Config, mk: Market, ps: seq<Position>, n: nat, t: Trade)
    requires n < |ps| && DistinctIds(ps) && Source(cfg, mk, ps[..n], t)
    ensures Source(cfg, mk, ps, t) && t.id != ps[n].id
  {
    hide OutcomeOf;
    var k :| 0 <= k < n && IsTradeOf(cfg, mk, ps[..n][k], t);
    assert IsTradeOf(cfg, mk, ps[k], t);
  }

  lemma SourceIsLast(cfg: Config, mk: Market, ps: seq<Position>, t: Trade)
    requires ps != [] && IsTradeOf(cfg, mk, ps[|ps| - 1], t)
    ensures Source(cfg, mk, ps, t)
  {}

  lemma {:induction false} PassTrades(cfg: Config, mk: Market, ps: seq<Position>, at: nat)
    requires DistinctIds(ps)
    ensures TradesOfPass(cfg, mk, ps, NewTrades(cfg, mk, ps, at), at)
  {
    hide OutcomeOf, Cash, Round2, Source;
    if ps != [] {
      var n := |ps| - 1;
      PassTrades(cfg, mk, ps[..n], at);
      var before, p := NewTrades(cfg, mk, ps[..n], at), ps[n];
      var o := OutcomeOf(cfg, mk, p);
      var ts := before + TradeOf(p, o, at);
      forall i | 0 <= i < |before| ensures Source(cfg, mk, ps, ts[i]) && ts[i].id != p.id {
        assert ts[i] == before[i];
        SourceStays(cfg, mk, ps, n, before[i]);
      }
      if !o.Hold? { SourceIsLast(cfg, mk, ps, ts[|before|]); }
      forall k | 0 <= k < |ps| && OutcomeOf(cfg, mk, ps[k]).Close? ensures Finished(ts, ps[k].id) {
        if k < n {
          assert ps[..n][k] == ps[k] && Finished(before, ps[k].id);
          var i :| 0 <= i < |before| && before[i].id == ps[k].id && !before[i].partial;
          assert ts[i].id == ps[k].id && !ts[i].partial;
        } else {
          assert ts[|before|].id == p.id && !ts[|before|].partial;
        }
      }
    }
  }

  ghost predicate LeftByPass(cfg: Config, mk: Market, ps: seq<Position>, left: seq<Position>) {
    && DistinctIds(left)
    && (forall i :: 0 <= i < |left| ==> SurvivesAs(cfg, mk, ps, left[i]))
    && (forall k :: 0 <= k < |ps| && !OutcomeOf(cfg, mk, ps[k]).Close? ==> Listed(left, ps[k].id))
  }

  lemma SurvivalStays(cfg: Config, mk: Market, ps: seq<Position>, n: nat, q: Position)
    requires n < |ps| && DistinctIds(ps) && SurvivesAs(cfg, mk, ps[..n], q)
    ensures SurvivesAs(cfg, mk, ps, q) && q.id != ps[n].id
  {
    hide OutcomeOf;
    var k :| 0 <= k < n && IsSurvivorOf(cfg, mk, ps[..n][k], q);
    assert IsSurvivorOf(cfg, mk, ps[k], q);
    OutcomeKeepsId(cfg, mk, ps[k]);
  }

  lemma SurvivesLast(cfg: Config, mk: Market, ps: seq<Position>, q: Position)
    requires ps != [] && IsSurvivorOf(cfg, mk, ps[|ps| - 1], q)
    ensures SurvivesAs(cfg, mk, ps, q)
  {}

  /** The survivors are the positions that did not close, under the same ids. */
  lemma {:induction false} SurvivorsAreOpen(cfg: Config, mk: Market, ps: seq<Position>)
    requires DistinctIds(ps)
    ensures LeftByPass(cfg, mk, ps, Survivors(cfg, mk, ps))
  {
    hide OutcomeOf, SurvivesAs;
    if ps != [] {
      var n := |ps| - 1;
      SurvivorsAreOpen(cfg, mk, ps[..n]);
      var before, o := Survivors(cfg, mk, ps[..n]), OutcomeOf(cfg, mk, ps[n]);
      var left := Survivors(cfg, mk, ps);
      OutcomeKeepsId(cfg, mk, ps[n]);
      forall i | 0 <= i < |before| ensures SurvivesAs(cfg, mk, ps, left[i]) && left[i].id != ps[n].id {
        assert left[i] == before[i];
        SurvivalStays(cfg, mk, ps, n, before[i]);
      }
      if !o.Close? { SurvivesLast(cfg, mk, ps, left[|before|]); }
      forall k | 0 <= k < |ps| && !OutcomeOf(cfg, mk, ps[k]).Close? ensures Listed(left, ps[k].id) {
        if k < n {
          assert ps[..n][k] == ps[k] && Listed(before, ps[k].id);
          var i :| 0 <= i < |before| && before[i].id == ps[k].id;
          assert left[i].id == ps[k].id;
        } else {
          assert left[|before|].id == ps[n].id;
        }
      }
    }
  }

  ghost predicate SurvivesAs(cfg: Config, mk: Market, ps: seq<Position>, q: Position) {
    exists k :: 0 <= k < |ps| && IsSurvivorOf(cfg, mk, ps[k], q)
  }

  predicate IsSurvivorOf(cfg: Config, mk: Market, p: Position, q: Position) {
    var o := OutcomeOf(cfg, mk, p);
    !o.Close? && q == o.pos
  }

  lemma OutcomeKeepsId(cfg: Config, mk: Market, p: Position)
    ensures OutcomeOf(cfg, mk, p).pos.id == p.id
  {
    hide ExitStep;
    ExitKeepsId(cfg(p.symbol), p, QuoteFor(mk, p));
  }

  /** Only a position without a partial takes one; the mark then stays. */
  lemma PartialIsMarked(cfg: Config, mk: Market, p: Position)
    ensures var o := OutcomeOf(cfg, mk, p);
            && (o.Partial? ==> !p.partialDone && o.pos.partialDone)
            && (p.partialDone ==> o.pos.partialDone)
  {
    hide TrailMoves, TrailStop, BeArmed, BeLock, PostPartialSl, PartialCloseVolume;
  }

  /** A new trade's position was open, so it has no final trade yet, and no
      partial one if this is its partial. */
  lemma NewTradeIsNext(cfg: Config, mk: Market, f: Book, t: Trade, i: nat)
    requires Lifecycle(f) && Source(cfg, mk, f.positions, t) && i < |f.trades| && f.trades[i].id == t.id
    ensures f.trades[i].partial && !t.partial
  {
    hide OutcomeOf;
    var k :| 0 <= k < |f.positions| && IsTradeOf(cfg, mk, f.positions[k], t);
    assert Listed(f.positions, t.id) && !Finished(f.trades, t.id);
    PartialIsMarked(cfg, mk, f.positions[k]);
  }

  lemma TradesStayOrdered(cfg: Config, mk: Market, f: Book, nt: seq<Trade>)
    requires Lifecycle(f) && TradesOfPass(cfg, mk, f.positions, nt, f.clock)
    ensures PartialThenFinal(f.trades + nt)
  {
    hide Source;
    var ts, m := f.trades + nt, |f.trades|;
    forall i, j | m <= i < j < |ts| ensures ts[i].id != ts[j].id {
      assert ts[i] == nt[i - m] && ts[j] == nt[j - m];
    }
    forall i, j | 0 <= i < j < |ts| && ts[i].id == ts[j].id
      ensures ts[i].partial && !ts[j].partial && ts[i].at < ts[j].at
    {
      if i < m <= j {
        assert ts[i] == f.trades[i] && ts[j] == nt[j - m];
        NewTradeIsNext(cfg, mk, f, nt[j - m], i);
      }
    }
  }

  /** A listed survivor has no final trade among the new ones. */
  lemma SurvivorIsUnfinished(cfg: Config, mk: Market, ps: seq<Position>, q: Position, t: Trade)
    requires DistinctIds(ps) && SurvivesAs(cfg, mk, ps, q) && Source(cfg, mk, ps, t) && t.id == q.id
    ensures t.partial && q.partialDone
  {
    hide OutcomeOf;
    var k :| 0 <= k < |ps| && IsSurvivorOf(cfg, mk, ps[k], q);
    var l :| 0 <= l < |ps| && IsTradeOf(cfg, mk, ps[l], t);
    OutcomeKeepsId(cfg, mk, ps[k]);
    assert k == l;
    PartialIsMarked(cfg, mk, ps[k]);
  }

  lemma SurvivorWasListed(cfg: Config, mk: Market, ps: seq<Position>, q: Position) returns (k: nat)
    requires SurvivesAs(cfg, mk, ps, q)
    ensures k < |ps| && ps[k].id == q.id && (ps[k].partialDone ==> q.partialDone)
  {
    hide OutcomeOf;
    k :| 0 <= k < |ps| && IsSurvivorOf(cfg, mk, ps[k], q);
    OutcomeKeepsId(cfg, mk, ps[k]);
    PartialIsMarked(cfg, mk, ps[k]);
  }

  lemma FinishedConcat(ts: seq<Trade>, nt: seq<Trade>, id: nat)
    ensures Finished(ts + nt, id) <==> Finished(ts, id) || Finished(nt, id)
  {
    if Finished(ts, id) {
      var i :| 0 <= i < |ts| && ts[i].id == id && !ts[i].partial;
      assert (ts + nt)[i] == ts[i];
    }
    if Finished(nt, id) {
      var i :| 0 <= i < |nt| && nt[i].id == id && !nt[i].partial;
      assert (ts + nt)[|ts| + i] == nt[i];
    }
  }

  lemma OpenIffUnfinished(cfg: Config, mk: Market, f: Book, nt: seq<Trade>, left: seq<Position>, id: nat)
    requires Lifecycle(f) && id < f.nextId
    requires TradesOfPass(cfg, mk, f.positions, nt, f.clock) && LeftByPass(cfg, mk, f.positions, left)
    ensures Listed(left, id) <==> !Finished(f.trades + nt, id)
  {
    hide Source, SurvivesAs, OutcomeOf;
    FinishedConcat(f.trades, nt, id);
    if Listed(left, id) {
      var i :| 0 <= i < |left| && left[i].id == id;
      var k := SurvivorWasListed(cfg, mk, f.positions, left[i]);
      assert Listed(f.positions, id);
      if Finished(nt, id) {
        var j :| 0 <= j < |nt| && nt[j].id == id && !nt[j].partial;
        SurvivorIsUnfinished(cfg, mk, f.positions, left[i], nt[j]);
      }
    } else if !Finished(f.trades, id) {
      assert Listed(f.positions, id);
      var k :| 0 <= k < |f.positions| && f.positions[k].id == id;
    }
  }

  lemma MarksStay(cfg: Config, mk: Market, f: Book, nt: seq<Trade>, left: seq<Position>, i: nat, j: nat)
    requires Lifecycle(f) && i < |left| && j < |f.trades + nt| && (f.trades + nt)[j].id == left[i].id
    requires TradesOfPass(cfg, mk, f.positions, nt, f.clock) && LeftByPass(cfg, mk, f.positions, left)
    ensures left[i].partialDone
  {
    hide Source, SurvivesAs, OutcomeOf;
    var k := SurvivorWasListed(cfg, mk, f.positions, left[i]);
    if j < |f.trades| {
      assert f.trades[j].id == f.positions[k].id;
    } else {
      SurvivorIsUnfinished(cfg, mk, f.positions, left[i], nt[j - |f.trades|]);
    }
  }

  lemma NumbersStayFresh(cfg: Config, mk: Market, f: Book, nt: seq<Trade>, left: seq<Position>, b: Book)
    requires Numbered(f)
    requires TradesOfPass(cfg, mk, f.positions, nt, f.clock) && LeftByPass(cfg, mk, f.positions, left)
    requires b.positions == left && b.trades == f.trades + nt && b.nextId == f.nextId && b.clock == f.clock + 1
    ensures Numbered(b)
  {
    hide OutcomeOf;
    forall i | 0 <= i < |left| ensures left[i].id < f.nextId {
      var k := SurvivorWasListed(cfg, mk, f.positions, left[i]);
    }
    forall i | 0 <= i < |b.trades| ensures b.trades[i].id < b.nextId && b.trades[i].at < b.clock {
      if i >= |f.trades| {
        var t := nt[i - |f.trades|];
        assert Source(cfg, mk, f.positions, t);
      }
    }
  }

  /** The step's result in terms of the survivors. */
  lemma NextLeavesSurvivors(cfg: Config, b: Book, mk: Market, cs: seq<Candidate>)
    requires Lifecycle(FillAll(b, mk, cs)) && !CallRaises(cfg, b, mk, cs)
    ensures var f := FillAll(b, mk, cs);
            Next(cfg, b, mk, cs).positions == Survivors(cfg, mk, f.positions)
  {
    hide FillAll, Survivors, Without, Touched, Closed, Realised, NewTrades, CallRaises;
    RemovalLeavesSurvivors(cfg, mk, FillAll(b, mk, cs).positions);
  }

  lemma SettledKeepsLifecycle(cfg: Config, b: Book, mk: Market, cs: seq<Candidate>)
    requires Lifecycle(b) && !CallRaises(cfg, b, mk, cs)
    ensures Lifecycle(Next(cfg, b, mk, cs))
  {
    hide FillAll, Survivors, Without, Touched, Closed, Realised, NewTrades, Unrealised, TradesOfPass, LeftByPass,
      CallRaises;
    var f, b' := FillAll(b, mk, cs), Next(cfg, b, mk, cs);
    FillsKeepLifecycle(b, mk, cs);
    NextLeavesSurvivors(cfg, b, mk, cs);
    var nt, left := NewTrades(cfg, mk, f.positions, f.clock), Survivors(cfg, mk, f.positions);
    PassTrades(cfg, mk, f.positions, f.clock);
    SurvivorsAreOpen(cfg, mk, f.positions);
    NumbersStayFresh(cfg, mk, f, nt, left, b');
    TradesStayOrdered(cfg, mk, f, nt);
    forall id: nat | id < b'.nextId ensures Listed(left, id) <==> !Finished(b'.trades, id) {
      OpenIffUnfinished(cfg, mk, f, nt, left, id);
    }
    forall i, j | 0 <= i < |left| && 0 <= j < |b'.trades| && b'.trades[j].id == left[i].id
      ensures left[i].partialDone
    {
      MarksStay(cfg, mk, f, nt, left, i, j);
    }
  }

  lemma NextKeepsLifecycle(cfg: Config, b: Book, mk: Market, cs: seq<Candidate>)
    requires Lifecycle(b)
    ensures Lifecycle(Next(cfg, b, mk, cs))
  {
    hide Lifecycle, CallRaises, Settled;
    if !CallRaises(cfg, b, mk, cs) { SettledKeepsLifecycle(cfg, b, mk, cs); }
  }

  /** In every reachable book a filled position is open exactly when it has no
      final trade, and its trades are at most one partial and, in a strictly
      later step, at most one final. */
  lemma {:induction false} RunKeepsLifecycle(cfg: Config, cash: real, ins: seq<Input>)
    ensures Lifecycle(Run(cfg, cash, ins))
  {
    hide Next;
    if ins != [] {
      var i := ins[|ins| - 1];
      RunKeepsLifecycle(cfg, cash, ins[..|ins| - 1]);
      NextKeepsLifecycle(cfg, Run(cfg, cash, ins[..|ins| - 1]), i.market, i.approved);
    }
  }

  // ----- Cash ------------------------------------------------------------------------

  const HALF_CENT := 0.005

  function Booked(ts: seq<Trade>): real {
    if ts == [] then 0.0 else Booked(ts[..|ts| - 1]) + ts[|ts| - 1].pnl
  }

  lemma {:induction false} BookedConcat(ts: seq<Trade>, us: seq<Trade>)
    ensures Booked(ts + us) == Booked(ts) + Booked(us)
  {
    if us == [] {
      assert ts + us == ts;
    } else {
      var n := |us| - 1;
      BookedConcat(ts, us[..n]);
      assert (ts + us)[..|ts| + n] == ts + us[..n];
    }
  }

  predicate Near(x: real, y: real, n: nat) { -HALF_CENT * n as real <= x - y <= HALF_CENT * n as real }

  lemma NearAdds(x: real, y: real, n: nat, u: real, v: real, m: nat)
    requires Near(x, y, n) && Near(u, v, m)
    ensures Near(x + u, y + v, n + m)
  {
    assert (n + m) as real == n as real + m as real;
  }

  lemma TradeIsNear(p: Position, o: Outcome, at: nat)
    ensures Near(Cash(p, o), Booked(TradeOf(p, o, at)), |TradeOf(p, o, at)|)
  {
    hide Cash, Round2;
    if !o.Hold? {
      var x := Cash(p, o);
      RoundErrorCents(x);
      var t := Trade(p.id, Round2(x), o.Partial?, at);
      assert TradeOf(p, o, at) == [t] && Booked([t][..0]) == 0.0;
    } else {
      HoldIsFree(p, o);
    }
  }

  lemma HoldIsFree(p: Position, o: Outcome)
    requires o.Hold?
    ensures Cash(p, o) == 0.0
  {}

  lemma RoundErrorCents(x: real)
    ensures -HALF_CENT <= x - Round2(x) <= HALF_CENT
  {
    RoundError(x, 100.0);
  }

  lemma {:induction false} PassIsNear(cfg: Config, mk: Market, ps: seq<Position>, at: nat)
    ensures Near(Realised(cfg, mk, ps), Booked(NewTrades(cfg, mk, ps, at)), |NewTrades(cfg, mk, ps, at)|)
  {
    hide OutcomeOf, Cash, TradeOf, Near;
    if ps == [] {
      NothingIsNear();
    } else {
      var n := |ps| - 1;
      var o, nt := OutcomeOf(cfg, mk, ps[n]), NewTrades(cfg, mk, ps[..n], at);
      PassIsNear(cfg, mk, ps[..n], at);
      TradeIsNear(ps[n], o, at);
      BookedConcat(nt, TradeOf(ps[n], o, at));
      NearAdds(Realised(cfg, mk, ps[..n]), Booked(nt), |nt|,
               Cash(ps[n], o), Booked(TradeOf(ps[n], o, at)), |TradeOf(ps[n], o, at)|);
    }
  }

  lemma NothingIsNear()
    ensures Near(0.0, 0.0, 0)
  {}

  lemma {:induction false} FillsMoveNoCash(b: Book, mk: Market, cs: seq<Candidate>)
    ensures var f := FillAll(b, mk, cs);
            f.cash == b.cash && f.trades == b.trades && f.clock == b.clock && b.positions <= f.positions
  {
    hide Fills, Opened;
    if cs != [] { FillsMoveNoCash(b, mk, cs[..|cs| - 1]); }
  }

  predicate Returns(cfg: Config, cash: real, ins: seq<Input>)
    requires ins != []
  {
    var i := ins[|ins| - 1];
    !CallRaises(cfg, Run(cfg, cash, ins[..|ins| - 1]), i.market, i.approved)
  }

  /** Cash differs from the starting cash plus all recorded P&L by at most half a
      cent a trade, and equity is cash plus unrealised P&L, after every call (that
      does not raise; one that does changes nothing). */
  lemma {:induction false} CashIsConserved(cfg: Config, cash: real, ins: seq<Input>)
    ensures var b := Run(cfg, cash, ins);
            && Near(b.cash - cash, Booked(b.trades), |b.trades|)
            && (ins != [] && Returns(cfg, cash, ins) ==>
                  b.equity == b.cash + Unrealised(ins[|ins| - 1].market, b.positions))
  {
    hide FillAll, Touched, Closed, Without, Realised, NewTrades, Near, Unrealised, CallRaises;
    if ins == [] {
      NothingIsNear();
    } else {
      var i, b := ins[|ins| - 1], Run(cfg, cash, ins[..|ins| - 1]);
      CashIsConserved(cfg, cash, ins[..|ins| - 1]);
      if Returns(cfg, cash, ins) {
        FillsMoveNoCash(b, i.market, i.approved);
        var f := FillAll(b, i.market, i.approved);
        var nt := NewTrades(cfg, i.market, f.positions, f.clock);
        PassIsNear(cfg, i.market, f.positions, f.clock);
        BookedConcat(f.trades, nt);
        NearAdds(b.cash - cash, Booked(b.trades), |b.trades|, Realised(cfg, i.market, f.positions), Booked(nt), |nt|);
      }
    }
  }

  // ----- The account's worst case --------------------------------------------------------

  /** The positions a call fills; none where it raises. */
  function Filled(cfg: Config, b: Book, i: Input): seq<Position> {
    if CallRaises(cfg, b, i.market, i.approved) then []
    else
      FillsMoveNoCash(b, i.market, i.approved);
      FillAll(b, i.market, i.approved).positions[|b.positions|..]
  }

  /** Every position ever filled in the run, as it was at its fill. */
  function EverFilled(cfg: Config, cash: real, ins: seq<Input>): seq<Position> {
    if ins == [] then []
    else
      var before := ins[..|ins| - 1];
      EverFilled(cfg, cash, before) + Filled(cfg, Run(cfg, cash, before), ins[|ins| - 1])
  }

  predicate Covered(cfg: Config, b: Book, floor: real) {
    AllInsured(cfg, b.positions) && b.cash + TotalWorst(b.positions) >= floor
  }

  /** A call adds no risk beyond that of the positions it fills. */
  lemma CallIsCovered(cfg: Config, b: Book, i: Input, floor: real)
    requires Lifecycle(b) && Covered(cfg, b, floor) && AllInsured(cfg, Filled(cfg, b, i))
    ensures Covered(cfg, Next(cfg, b, i.market, i.approved), floor + TotalWorst(Filled(cfg, b, i)))
  {
    hide FillAll, Touched, Closed, Without, NewTrades, Realised, Unrealised, Survivors, Insured, WorstCase, Lifecycle,
      CallRaises;
    var filled := Filled(cfg, b, i);
    if CallRaises(cfg, b, i.market, i.approved) {
      assert TotalWorst(filled) == 0.0;
    } else {
      FillsMoveNoCash(b, i.market, i.approved);
      FillsKeepLifecycle(b, i.market, i.approved);
      var f := FillAll(b, i.market, i.approved);
      assert f.positions == b.positions + filled;
      NextLeavesSurvivors(cfg, b, i.market, i.approved);
      PassNeverCostsMore(cfg, i.market, f.positions);
      TotalWorstConcat(b.positions, filled);
    }
  }

  /** However the market moves, the account ends no lower than its starting cash
      less the initial risk of every position it ever filled; closing every open
      position at its stop would not change that. */
  lemma {:induction false} AccountWorstCase(cfg: Config, cash: real, ins: seq<Input>)
    requires AllInsured(cfg, EverFilled(cfg, cash, ins))
    ensures Covered(cfg, Run(cfg, cash, ins), cash + TotalWorst(EverFilled(cfg, cash, ins)))
  {
    hide Next, Filled, Insured, WorstCase, Lifecycle;
    if ins != [] {
      var before, i := ins[..|ins| - 1], ins[|ins| - 1];
      var b, was := Run(cfg, cash, before), EverFilled(cfg, cash, before);
      var filled := Filled(cfg, b, i);
      assert forall k :: 0 <= k < |was| ==> (was + filled)[k] == was[k];
      assert forall k :: 0 <= k < |filled| ==> (was + filled)[|was| + k] == filled[k];
      AccountWorstCase(cfg, cash, before);
      RunKeepsLifecycle(cfg, cash, before);
      CallIsCovered(cfg, b, i, cash + TotalWorst(was));
      TotalWorstConcat(was, filled);
    }
  }
}
