/** Per-symbol halt-on-divergence state machine (core/edge_monitor.py). */
module EdgeMonitor {
  import opened DailyPnl
  import opened Numbers

  datatype Status = Ok | Watch | Halt | CoolingOff

  datatype Decision = NoData | HaltEntered | OkResumed | WatchEntered | OkResumedFromWatch | NoChange

  datatype Config = Config(sigma: real, decayDays: int, recoveryRequired: int)

  const MIN_NONZERO := 7
  const MIN_STD := 0.000001
  const FLOOR_USD := 0.5
  const HISTORY := 90
  const NOTHING := 0.000000001

  /** One observation of a symbol: the time, the projection and the closed trades. */
  datatype Obs = Obs(now: int, symbol: string, projection: real, trades: seq<ClosedTrade>)

  datatype Row = Row(ts: int, decision: Decision, status: Status, inBand: nat)

  datatype State = State(
    status: Status, inBand: nat, lastInBandDay: Option<int>, observed: nat,
    haltEnteredAt: Option<int>, haltCount: nat, watchEnteredAt: Option<int>,
    history: seq<Row>, decision: Option<Decision>)

  const FRESH := State(Ok, 0, None, 0, None, 0, None, [], None)

  // ----- Divergence of one half ----------------------------------------------

  /** More than sigma standard deviations off the projection; a half that hardly
      varies is held to a fixed amount instead. */
  predicate Diverges(half: seq<real>, projection: real, sigma: real) {
    |half| >= 2 && projection != 0.0
    && var diff := Mean(half) - projection;
       if Variance(half) < MIN_STD * MIN_STD then Abs(diff) > FLOOR_USD else ExceedsStds(diff, sigma, Variance(half))
  }

  function Window(c: Config, o: Obs): seq<real> { Series(o.trades, o.symbol, Day(o.now), c.decayDays) }

  /** The window holds decayDays days (none for a negative count), so its first half
      is the Python slice up to decayDays // 2. */
  function HalfA(c: Config, o: Obs): seq<real> { Window(c, o)[..|Window(c, o)| / 2] }

  function HalfB(c: Config, o: Obs): seq<real> { Window(c, o)[|Window(c, o)| / 2..] }

  predicate DivergesA(c: Config, o: Obs) { Diverges(HalfA(c, o), o.projection, c.sigma) }

  predicate DivergesB(c: Config, o: Obs) { Diverges(HalfB(c, o), o.projection, c.sigma) }

  // ----- The minimum-data gate -------------------------------------------------

  predicate NonzeroClose(t: ClosedTrade, symbol: string) { t.symbol == symbol && Abs(t.pnl) > NOTHING }

  function CountNonzero(ts: seq<ClosedTrade>, symbol: string): nat {
    if ts == [] then 0
    else CountNonzero(ts[..|ts| - 1], symbol) + if NonzeroClose(ts[|ts| - 1], symbol) then 1 else 0
  }

  /** Enough positive-edge data to judge the symbol. */
  predicate Evaluated(o: Obs) { o.projection > 0.0 && CountNonzero(o.trades, o.symbol) >= MIN_NONZERO }

  predicate InBand(c: Config, o: Obs) { !DivergesA(c, o) && !DivergesB(c, o) }

  // ----- One observation on values -------------------------------------------

  /** Same-day upsert, then keep the newest 90 rows. */
  function Upsert(h: seq<Row>, r: Row): seq<Row> {
    var h' := if h != [] && Day(h[|h| - 1].ts) == Day(r.ts) then h[..|h| - 1] + [r] else h + [r];
    if |h'| > HISTORY then h'[|h'| - HISTORY..] else h'
  }

  function Counted(c: Config, s: State, o: Obs): State {
    if !InBand(c, o) then s.(inBand := 0, lastInBandDay := None)
    else if s.lastInBandDay == Some(Day(o.now)) then s
    else s.(inBand := s.inBand + 1, lastInBandDay := Some(Day(o.now)))
  }

  /** The transition of an evaluated observation, before the audit fields. */
  function Transition(c: Config, s: State, o: Obs): (State, Decision) {
    if DivergesA(c, o) && DivergesB(c, o) && s.status != Halt then
      (s.(status := Halt, haltEnteredAt := Some(o.now), haltCount := s.haltCount + 1, inBand := 0,
          watchEnteredAt := None),
       HaltEntered)
    else
      var t := Counted(c, s, o);
      if t.status == Halt && InBand(c, o) && t.inBand >= c.recoveryRequired then
        (t.(status := Ok, observed := t.observed + 1), OkResumed)
      else if !InBand(c, o) && t.status == Ok then
        (t.(status := Watch, watchEnteredAt := Some(o.now)), WatchEntered)
      else if t.status == Watch && InBand(c, o) then
        (t.(status := Ok, watchEnteredAt := None), OkResumedFromWatch)
      else (t, NoChange)
  }

  function Evaluate(c: Config, s: State, o: Obs): State {
    if !Evaluated(o) then s.(decision := Some(NoData))
    else
      var (t, d) := Transition(c, s, o);
      t.(observed := t.observed + 1, decision := Some(d),
         history := Upsert(t.history, Row(o.now, d, t.status, t.inBand)))
  }

  // ----- The state object ------------------------------------------------------

  class SymbolEdgeState {
    var status: Status
    var inBand: nat
    var lastInBandDay: Option<int>
    var observed: nat
    var haltEnteredAt: Option<int>
    var haltCount: nat
    var watchEnteredAt: Option<int>
    var history: seq<Row>
    var decision: Option<Decision>

    ghost function View(): State
      reads this
    {
      State(status, inBand, lastInBandDay, observed, haltEnteredAt, haltCount, watchEnteredAt, history, decision)
    }

    /** from_dict */
    constructor (s: State)
      ensures View() == s
    {
      status, inBand, lastInBandDay, observed := s.status, s.inBand, s.lastInBandDay, s.observed;
      haltEnteredAt, haltCount, watchEnteredAt := s.haltEnteredAt, s.haltCount, s.watchEnteredAt;
      history, decision := s.history, s.decision;
    }

    /** to_dict */
    method ToValue() returns (s: State)
      ensures s == View()
    {
      s := State(status, inBand, lastInBandDay, observed, haltEnteredAt, haltCount, watchEnteredAt, history, decision);
    }

    method UpsertHistory(r: Row)
      modifies this`history
      ensures history == Upsert(old(history), r)
    {
      if history != [] && Day(history[|history| - 1].ts) == Day(r.ts) {
        history := history[|history| - 1 := r];
        assert history == old(history)[..|history| - 1] + [r];
      } else {
        history := history + [r];
      }
      if |history| > HISTORY { history := history[|history| - HISTORY..]; }
    }

    method Advance(c: Config, a: bool, b: bool, o: Obs) returns (d: Decision)
      requires a == DivergesA(c, o) && b == DivergesB(c, o)
      modifies this
      ensures (View(), d) == Transition(c, old(View()), o)
    {
      hide DivergesA, DivergesB;
      if a && b && status != Halt {
        status := Halt;
        haltEnteredAt, haltCount := Some(o.now), haltCount + 1;
        inBand, watchEnteredAt := 0, None;
        d := HaltEntered;
      } else {
        var band := !a && !b;
        if band {
          if lastInBandDay != Some(Day(o.now)) {
            inBand, lastInBandDay := inBand + 1, Some(Day(o.now));
          }
        } else {
          inBand, lastInBandDay := 0, None;
        }
        if status == Halt && band && inBand >= c.recoveryRequired {
          status, observed, d := Ok, observed + 1, OkResumed;
        } else if (a || b) && status == Ok {
          status, watchEnteredAt, d := Watch, Some(o.now), WatchEntered;
        } else if status == Watch && band {
          status, watchEnteredAt, d := Ok, None, OkResumedFromWatch;
        } else {
          d := NoChange;
        }
      }
    }

    method EvaluateSymbol(c: Config, o: Obs)
      modifies this
      ensures View() == Evaluate(c, old(View()), o)
    {
      if !Evaluated(o) {
        decision := Some(NoData);
        return;
      }
      var window := RealizedDailySeries(o.trades, o.symbol, Day(o.now), c.decayDays);
      var half := |window| / 2;
      var a, b := Diverges(window[..half], o.projection, c.sigma), Diverges(window[half..], o.projection, c.sigma);
      var d := Advance(c, a, b, o);
      observed, decision := observed + 1, Some(d);
      UpsertHistory(Row(o.now, d, status, inBand));
    }
  }

  function Lookup(doc: map<string, State>, symbol: string): State {
    if symbol in doc then doc[symbol] else FRESH
  }

  /** What tick lets a symbol see: its projection, all trades, and the time its turn comes. */
  datatype Feed = Feed(projections: map<string, real>, trades: seq<ClosedTrade>, times: map<string, int>)

  predicate Covers(f: Feed, symbol: string) { symbol in f.projections && symbol in f.times }

  function Seen(f: Feed, symbol: string): Obs
    requires Covers(f, symbol)
  {
    Obs(f.times[symbol], symbol, f.projections[symbol], f.trades)
  }

  /** tick: every projected symbol is evaluated once, with its first row's projection;
      the rest of the document is untouched. */
  method Tick(c: Config, doc: map<string, State>, symbols: seq<string>, f: Feed) returns (doc': map<string, State>)
    requires forall i, j :: 0 <= i < j < |symbols| ==> symbols[i] != symbols[j]
    requires forall s :: s in symbols ==> Covers(f, s)
    ensures forall s :: s in symbols ==> s in doc' && doc'[s] == Evaluate(c, Lookup(doc, s), Seen(f, s))
    ensures forall s :: s !in symbols ==> (s in doc' <==> s in doc) && (s in doc ==> doc'[s] == doc[s])
  {
    hide Evaluate;
    doc' := doc;
    for i := 0 to |symbols|
      invariant forall s :: s in symbols[..i] ==> s in doc' && doc'[s] == Evaluate(c, Lookup(doc, s), Seen(f, s))
      invariant forall s :: s !in symbols[..i] ==> (s in doc' <==> s in doc) && (s in doc ==> doc'[s] == doc[s])
    {
      var state := new SymbolEdgeState(Lookup(doc', symbols[i]));
      state.EvaluateSymbol(c, Seen(f, symbols[i]));
      var v := state.ToValue();
      doc' := doc'[symbols[i] := v];
      assert symbols[..i + 1] == symbols[..i] + [symbols[i]];
    }
    assert symbols[..|symbols|] == symbols;
  }

  /** The order-entry hook. */
  predicate IsHalted(s: State) { s.status in {Halt, CoolingOff} }
}
