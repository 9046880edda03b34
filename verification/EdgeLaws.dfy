/** What the edge monitor decides, on closed trades and configured numbers alone:
    when a symbol is judged, when it goes on HALT and WATCH and comes back, and what
    its record says. */
module EdgeLaws {
  import opened DailyPnl
  import opened EdgeMonitor
  import opened EdgeMonitorProofs
  import opened Numbers

  // ----- When a symbol is judged ---------------------------------------------------

  /** A close of the symbol that is not flat. */
  predicate IsClose(t: ClosedTrade, symbol: string) {
    t.symbol == symbol && (t.pnl > 0.000000001 || t.pnl < -0.000000001)
  }

  function Closes(ts: seq<ClosedTrade>, symbol: string): set<int> { set i | 0 <= i < |ts| && IsClose(ts[i], symbol) }

  lemma ClosesSnoc(ts: seq<ClosedTrade>, t: ClosedTrade, symbol: string)
    ensures |Closes(ts + [t], symbol)| == |Closes(ts, symbol)| + if IsClose(t, symbol) then 1 else 0
  {
    hide IsClose;
    var before, all := Closes(ts, symbol), Closes(ts + [t], symbol);
    if IsClose(t, symbol) { assert all == before + {|ts|}; } else { assert all == before; }
  }

  lemma {:induction false} CountIsCloses(ts: seq<ClosedTrade>, symbol: string)
    ensures CountNonzero(ts, symbol) == |Closes(ts, symbol)|
  {
    if ts == [] {
      assert Closes(ts, symbol) == {};
    } else {
      var n := |ts| - 1;
      CountIsCloses(ts[..n], symbol);
      assert ts[..n] + [ts[n]] == ts;
      hide Closes;
      ClosesSnoc(ts[..n], ts[n], symbol);
    }
  }

  /** A positive projection and at least seven closes that are not flat. */
  predicate Judged(o: Obs) { o.projection > 0.0 && |Closes(o.trades, o.symbol)| >= 7 }

  lemma JudgedIff(o: Obs)
    ensures Evaluated(o) <==> Judged(o)
  {
    CountIsCloses(o.trades, o.symbol);
    hide CountNonzero, Closes;
  }

  // ----- The two halves of the window ------------------------------------------------

  /** The symbol's totals of n days from `first`. */
  function Totals(o: Obs, first: int, n: nat): seq<real> {
    seq(n, k requires 0 <= k < n => TotalBetween(o.trades, o.symbol, first + k, first + k))
  }

  function WindowDays(c: Config): nat { if c.decayDays > 0 then c.decayDays else 0 }

  function FirstDay(c: Config, o: Obs): int { o.now / 86_400 - WindowDays(c) + 1 }

  function Older(c: Config, o: Obs): seq<real> { Totals(o, FirstDay(c, o), WindowDays(c) / 2) }

  function Newer(c: Config, o: Obs): seq<real> {
    var n := WindowDays(c) / 2;
    Totals(o, FirstDay(c, o) + n, WindowDays(c) - n)
  }

  lemma HalvesAre(c: Config, o: Obs)
    ensures HalfA(c, o) == Older(c, o) && HalfB(c, o) == Newer(c, o)
  {
    hide DayPnl, TotalBetween;
    var w, n, first := Window(c, o), WindowDays(c) / 2, FirstDay(c, o);
    assert |w| == WindowDays(c);
    forall k | 0 <= k < |w| ensures w[k] == TotalBetween(o.trades, o.symbol, first + k, first + k) {
      DayPnlIsTotal(o.trades, o.symbol, first + k);
    }
    assert w[..n] == Older(c, o) && w[n..] == Newer(c, o);
  }

  /** The mean is off the projection by more than sigma population deviations, or by
      half a dollar where the days hardly vary. */
  predicate Off(days: seq<real>, projection: real, sigma: real) {
    |days| >= 2
    && var d, v := Sum(days) / |days| as real - projection, MomentVariance(days);
       if v < 0.000000000001 then d > 0.5 || d < -0.5 else sigma < 0.0 || d * d > sigma * sigma * v
  }

  lemma OffIff(days: seq<real>, projection: real, sigma: real)
    ensures Diverges(days, projection, sigma) <==> projection != 0.0 && Off(days, projection, sigma)
  {
    if |days| >= 2 {
      VarianceByMoments(days);
      assert Mean(days) == Sum(days) / |days| as real;
      assert MIN_STD * MIN_STD == 0.000000000001;
      hide Variance, MomentVariance, Mean, Sum;
    }
  }

  predicate OlderOff(c: Config, o: Obs) { Off(Older(c, o), o.projection, c.sigma) }

  predicate NewerOff(c: Config, o: Obs) { Off(Newer(c, o), o.projection, c.sigma) }

  lemma BandIs(c: Config, o: Obs)
    requires Judged(o)
    ensures Evaluated(o) && DivergesA(c, o) == OlderOff(c, o) && DivergesB(c, o) == NewerOff(c, o)
    ensures InBand(c, o) <==> !OlderOff(c, o) && !NewerOff(c, o)
  {
    JudgedIff(o);
    HalvesAre(c, o);
    OffIff(Older(c, o), o.projection, c.sigma);
    OffIff(Newer(c, o), o.projection, c.sigma);
    hide Evaluated, HalfA, HalfB, Older, Newer, Off, Diverges, Closes;
  }

  // ----- HALT and WATCH -----------------------------------------------------------------

  predicate BothOff(c: Config, o: Obs) { Judged(o) && OlderOff(c, o) && NewerOff(c, o) }

  predicate OneOff(c: Config, o: Obs) { Judged(o) && OlderOff(c, o) != NewerOff(c, o) }

  predicate NoneOff(c: Config, o: Obs) { Judged(o) && !OlderOff(c, o) && !NewerOff(c, o) }

  lemma StatusStep(c: Config, s: State, o: Obs)
    requires s.status != CoolingOff
    ensures var t := Evaluate(c, s, o);
            && (t.status == Halt <==> || BothOff(c, o)
                                      || (s.status == Halt && !(NoneOff(c, o) && t.inBand >= c.recoveryRequired)))
            && (t.status == Watch <==> || (s.status == Ok && OneOff(c, o))
                                       || (s.status == Watch && !BothOff(c, o) && !NoneOff(c, o)))
            && t.status != CoolingOff
  {
    JudgedIff(o);
    if Judged(o) { BandIs(c, o); }
    hide Judged, Evaluated, DivergesA, DivergesB, OlderOff, NewerOff, Upsert, Day;
  }

  lemma StepAt(c: Config, obs: seq<Obs>, n: nat)
    requires n < |obs|
    ensures Run(c, obs[..n + 1]) == Evaluate(c, Run(c, obs[..n]), obs[n])
    ensures Run(c, obs[..n]).status != CoolingOff
  {
    assert obs[..n + 1] == obs[..n] + [obs[n]];
    RunStep(c, obs[..n], obs[n]);
    NeverCools(c, obs[..n]);
  }

  lemma {:induction false} NeverCools(c: Config, obs: seq<Obs>)
    ensures Run(c, obs).status != CoolingOff
  {
    hide Evaluate;
    if obs != [] {
      var n := |obs| - 1;
      NeverCools(c, obs[..n]);
      StatusStep(c, Run(c, obs[..n]), obs[n]);
    }
  }

  /** In every run a symbol goes on HALT exactly at a judged observation whose two
      halves are both off the projection, wherever it was before. */
  lemma HaltIsEnteredIff(c: Config, obs: seq<Obs>, e: nat)
    requires e < |obs|
    ensures Enters(c, obs, e) <==> StatusAt(c, obs, e) != Halt && BothOff(c, obs[e])
  {
    StepAt(c, obs, e);
    hide Run, Evaluate, BothOff, NoneOff, OneOff;
    StatusStep(c, Run(c, obs[..e]), obs[e]);
  }

  /** And on WATCH exactly from OK with one half off, where it stays until both halves
      are judged to be off (HALT) or neither (OK). */
  lemma WatchIff(c: Config, obs: seq<Obs>, n: nat)
    requires n < |obs|
    ensures StatusAt(c, obs, n + 1) == Watch
       <==> || (StatusAt(c, obs, n) == Ok && OneOff(c, obs[n]))
            || (StatusAt(c, obs, n) == Watch && !BothOff(c, obs[n]) && !NoneOff(c, obs[n]))
  {
    StepAt(c, obs, n);
    hide Run, Evaluate, BothOff, NoneOff, OneOff;
    StatusStep(c, Run(c, obs[..n]), obs[n]);
  }

  /** HALT ends exactly at a judged observation with neither half off by which enough
      in-band days are counted. */
  lemma HaltEndsIff(c: Config, obs: seq<Obs>, n: nat)
    requires n < |obs| && StatusAt(c, obs, n) == Halt
    ensures StatusAt(c, obs, n + 1) != Halt <==> NoneOff(c, obs[n]) && Run(c, obs[..n + 1]).inBand >= c.recoveryRequired
  {
    StepAt(c, obs, n);
    hide Run, Evaluate, BothOff, OneOff;
    StatusStep(c, Run(c, obs[..n]), obs[n]);
  }

  // ----- The record ------------------------------------------------------------------------

  /** The time of the last entry. */
  function LastEntry(c: Config, obs: seq<Obs>): Option<int> {
    if obs == [] then None
    else
      var n := |obs| - 1;
      if Enters(c, obs, n) then Some(obs[n].now) else LastEntry(c, obs[..n])
  }

  /** Observations that were judged, and HALT releases once more. */
  function Counted(c: Config, obs: seq<Obs>): nat {
    if obs == [] then 0
    else
      var n := |obs| - 1;
      Counted(c, obs[..n]) + (if Judged(obs[n]) then 1 else 0)
      + (if StatusAt(c, obs, n) == Halt && StatusAt(c, obs, n + 1) != Halt then 1 else 0)
  }

  /** The rows of earlier days, at most the newest 89. */
  function EarlierRows(h: seq<Row>, now: int): seq<Row> {
    var rows := if h != [] && h[|h| - 1].ts / 86_400 == now / 86_400 then h[..|h| - 1] else h;
    if |rows| > 89 then rows[|rows| - 89..] else rows
  }

  lemma RecordStep(c: Config, s: State, o: Obs)
    requires s.status != CoolingOff
    ensures var t := Evaluate(c, s, o);
            var enters, leaves := s.status != Halt && t.status == Halt, s.status == Halt && t.status != Halt;
            && t.haltEnteredAt == (if enters then Some(o.now) else s.haltEnteredAt)
            && t.observed == s.observed + (if Judged(o) then 1 else 0) + (if leaves then 1 else 0)
            && (if Judged(o) then t.decision.Some?
                                  && t.history == EarlierRows(s.history, o.now)
                                               + [Row(o.now, t.decision.value, t.status, t.inBand)]
                else t == s.(decision := Some(NoData)))
            && (t.status == Watch && s.status != Watch ==> t.watchEnteredAt == Some(o.now))
            && (t.status != Watch && s.status == Watch ==> t.watchEnteredAt == None)
            && t.decision == Some(
                 if !Judged(o) then NoData
                 else if enters then HaltEntered
                 else if leaves then OkResumed
                 else if t.status == Watch && s.status == Ok then WatchEntered
                 else if t.status == Ok && s.status == Watch then OkResumedFromWatch
                 else NoChange)
  {
    JudgedIff(o);
    hide Judged, Evaluated, DivergesA, DivergesB, Day;
    if Judged(o) {
      var (t, d) := Transition(c, s, o);
      UpsertIs(t.history, Row(o.now, d, t.status, t.inBand));
    }
    hide Upsert, EarlierRows;
  }

  lemma UpsertIs(h: seq<Row>, r: Row)
    ensures Upsert(h, r) == EarlierRows(h, r.ts) + [r]
  {}

  /** In every run halt_entered_at is the time of the last entry, and the observation
      counter counts judged observations, and each release once more. */
  lemma {:induction false} RecordTells(c: Config, obs: seq<Obs>)
    ensures Run(c, obs).haltEnteredAt == LastEntry(c, obs) && Run(c, obs).observed == Counted(c, obs)
  {
    hide Evaluate, Judged;
    if obs != [] {
      var n := |obs| - 1;
      RecordTells(c, obs[..n]);
      StepAt(c, obs, n);
      assert obs[..n + 1] == obs;
      hide Run;
      RecordStep(c, Run(c, obs[..n]), obs[n]);
    }
  }
}
