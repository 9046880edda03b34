/** What the canary cycle decides, on closed trades, projections and configured
    numbers alone. */
module CanaryLaws {
  import opened Canary
  import opened CanaryProofs
  import opened DailyPnl
  import opened Numbers

  // ----- Windows of trades -----------------------------------------------------------

  function Today(o: Obs): int { o.now / 86_400 }

  /** The symbol's total over the trades of the last `days` days. */
  function WindowTotal(o: Obs, symbol: string, days: int): real {
    TotalBetween(o.trades, symbol, Today(o) - days + 1, Today(o))
  }

  lemma WindowSums(o: Obs, symbol: string, days: int)
    ensures Sum(Series(o.trades, symbol, Day(o.now), days)) == WindowTotal(o, symbol, days)
  {
    var s := Series(o.trades, symbol, Day(o.now), days);
    SeriesTotals(o.trades, symbol, Day(o.now), days, |s|);
    assert s[..|s|] == s;
    hide TotalBetween, Series;
    if days <= 0 {
      TotalOfNoDays(o.trades, symbol, Today(o) - days + 1, Today(o) - days);
      TotalOfNoDays(o.trades, symbol, Today(o) - days + 1, Today(o));
    }
  }

  /** A day of the window on which the symbol's trades do not cancel out. */
  predicate Moved(o: Obs, symbol: string, days: int) {
    exists d :: Today(o) - days < d <= Today(o) && !Flat(TotalBetween(o.trades, symbol, d, d))
  }

  predicate Flat(x: real) { -0.000000001 <= x <= 0.000000001 }

  lemma MovedIff(o: Obs, symbol: string, days: int)
    ensures HasData(Series(o.trades, symbol, Day(o.now), days)) <==> Moved(o, symbol, days)
  {
    hide DayPnl, TotalBetween;
    var s, first := Series(o.trades, symbol, Day(o.now), days), Today(o) - days + 1;
    forall k | 0 <= k < |s| ensures s[k] == TotalBetween(o.trades, symbol, first + k, first + k) {
      DayPnlIsTotal(o.trades, symbol, first + k);
    }
    if HasData(s) {
      var k :| 0 <= k < |s| && Abs(s[k]) > NOTHING;
      assert !Flat(TotalBetween(o.trades, symbol, first + k, first + k));
    }
    if Moved(o, symbol, days) {
      var d :| Today(o) - days < d <= Today(o) && !Flat(TotalBetween(o.trades, symbol, d, d));
      assert Abs(s[d - first]) > NOTHING;
    }
  }

  // ----- The three tests ----------------------------------------------------------------

  /** Two weeks or more of days, each half varying and its mean more than sigma
      population deviations off the projection. */
  predicate Decays(o: Obs, symbol: string, expected: real) {
    var days := o.cfg.decayWindow;
    days >= 14 && expected != 0.0
    && var n, first := days / 2, Today(o) - days + 1;
       HalfOff(o, symbol, first, n, expected) && HalfOff(o, symbol, first + n, days - n, expected)
  }

  function Days(o: Obs, symbol: string, first: int, n: nat): seq<real> {
    seq(n, k requires 0 <= k < n => TotalBetween(o.trades, symbol, first + k, first + k))
  }

  predicate HalfOff(o: Obs, symbol: string, first: int, n: nat, expected: real) {
    n > 0
    && var days := Days(o, symbol, first, n);
       var d, v := Sum(days) / n as real - expected, MomentVariance(days);
       v > 0.000000000000000001 && FurtherThan(d, o.cfg.sigma, v)
  }

  /** d is more than sigma deviations, v being their square. */
  predicate FurtherThan(d: real, sigma: real, v: real) { sigma < 0.0 || d * d > sigma * sigma * v }

  lemma FurtherIs(d: real, sigma: real, v: real)
    ensures ExceedsStds(d, sigma, v) <==> FurtherThan(d, sigma, v)
  {}

  lemma HalfIs(o: Obs, symbol: string, first: int, n: nat, expected: real)
    requires expected != 0.0 && n > 0
    ensures HalfDiverges(Days(o, symbol, first, n), expected, o.cfg.sigma) <==> HalfOff(o, symbol, first, n, expected)
  {
    var days := Days(o, symbol, first, n);
    VarianceByMoments(days);
    MeanIs(days);
    assert NOTHING * NOTHING == 0.000000000000000001;
    hide Variance, MomentVariance, Mean, Sum, ExceedsStds, FurtherThan, Days;
    FurtherIs(Sum(days) / n as real - expected, o.cfg.sigma, MomentVariance(days));
  }

  lemma DecayIff(o: Obs, symbol: string, expected: real)
    ensures DecaySeen(o, symbol, expected) <==> Decays(o, symbol, expected)
  {
    var w, days := Series(o.trades, symbol, Day(o.now), o.cfg.decayWindow), o.cfg.decayWindow;
    if days >= 14 && expected != 0.0 {
      var n, first := days / 2, Today(o) - days + 1;
      forall k | 0 <= k < |w| ensures w[k] == TotalBetween(o.trades, symbol, first + k, first + k) {
        hide DayPnl, TotalBetween;
        DayPnlIsTotal(o.trades, symbol, first + k);
      }
      hide DayPnl, TotalBetween, Series;
      assert w[..n] == Days(o, symbol, first, n) && w[n..] == Days(o, symbol, first + n, days - n);
      hide HalfDiverges, HalfOff, Days;
      HalfIs(o, symbol, first, n, expected);
      HalfIs(o, symbol, first + n, days - n, expected);
    }
  }

  /** The canary's trades earned more than the control's by more than the configured
      share of the projection for every day of the window. */
  predicate Earned(o: Obs, symbol: string, expected: real) {
    WindowTotal(o, symbol, o.cfg.window)
    > WindowTotal(o, o.cfg.control, o.cfg.window) + expected * o.cfg.threshold * o.cfg.window as real
  }

  lemma EarnedIff(o: Obs, symbol: string, expected: real)
    ensures Outperforms(o, symbol, expected) <==> Earned(o, symbol, expected)
  {
    WindowSums(o, symbol, o.cfg.window);
    WindowSums(o, o.cfg.control, o.cfg.window);
    hide Series, WindowTotal, Sum;
  }

  /** There is something to judge by: a day that moved, or a recorded one. */
  predicate HasEvidence(o: Obs, symbol: string, history: seq<Row>) {
    || Moved(o, symbol, o.cfg.window) || Moved(o, o.cfg.control, o.cfg.window)
    || exists i :: 0 <= i < |history| && (!Flat(history[i].canaryPnl) || !Flat(history[i].controlPnl))
  }

  lemma EvidenceIff(o: Obs, symbol: string, history: seq<Row>)
    ensures Grounded(o, symbol, history) <==> HasEvidence(o, symbol, history)
  {
    MovedIff(o, symbol, o.cfg.window);
    MovedIff(o, o.cfg.control, o.cfg.window);
    assert forall x :: Abs(x) > NOTHING <==> !Flat(x);
    hide Series, HasData, Moved, Abs, Flat;
  }

  // ----- The decision -----------------------------------------------------------------------

  /** The cycle comes to check its current canary p again. */
  predicate Rechecks(s: State, o: Obs, p: Projection) {
    && o.cfg.enabled && o.cfg.pinned != Some("") && PickCanary(o.cfg, o.rows) == Some(p)
    && s.status != Init && s.symbol == Some(p.symbol)
  }

  predicate LongEnough(s: State, o: Obs) { (s.status == Picked || s.status == Promoted) && |s.history| >= o.cfg.window }

  /** A checked canary decays, is promoted, is demoted, or goes on, exactly so. */
  lemma CheckedBy(s: State, o: Obs, p: Projection)
    requires Rechecks(s, o, p)
    ensures var d, decays := Step(s, o).1, Decays(o, p.symbol, p.expected);
            var ready, earned := LongEnough(s, o), Earned(o, p.symbol, p.expected);
            var evidence := HasEvidence(o, p.symbol, s.history);
            && (d == DecayDemote <==> decays)
            && (d == Promote <==> !decays && ready && earned)
            && (d == Demote <==> !decays && ready && !earned && evidence)
            && (d == ContinueNoData <==> !decays && ready && !earned && !evidence)
            && (d == Continue <==> !decays && !ready)
  {
    DecayIff(o, p.symbol, p.expected);
    EarnedIff(o, p.symbol, p.expected);
    EvidenceIff(o, p.symbol, s.history);
    hide PickCanary, DecaySeen, Outperforms, Grounded, Decays, Earned, HasEvidence, Upsert, RowOf;
  }

  /** What each decision does to the status, and when. */
  lemma DecisionMoves(s: State, o: Obs)
    ensures var (t, d) := Step(s, o);
            && t.status == (match d
                            case DisabledByFlag => Disabled
                            case DisabledByOperator => Disabled
                            case NoTrustedPick => if s.symbol.None? then NoTrusted else s.status
                            case Pick => Picked
                            case Switch => Picked
                            case DecayDemote => Decayed
                            case Promote => Promoted
                            case Demote => Demoted
                            case _ => s.status)
            && t.promotedAt == (match d
                                case Promote => Some(o.now)
                                case Pick => None
                                case Switch => None
                                case _ => s.promotedAt)
            && t.demotedAt == (match d
                               case Demote => Some(o.now)
                               case DecayDemote => Some(o.now)
                               case Pick => None
                               case Switch => None
                               case _ => s.demotedAt)
            && t.pickedAt == (if d == Pick || d == Switch then Some(o.now) else s.pickedAt)
            && t.lastAudit == Some(o.now)
  {
    hide PickCanary, DecaySeen, Outperforms, Grounded, Upsert, RowOf, Sticky, Eligible;
  }

  /** Where the cycle does not check: disabled by the flag, then by an empty pin; no
      pick; a first pick; a protected canary; or a switch. */
  lemma DecidedBefore(s: State, o: Obs)
    ensures var d, pick := Step(s, o).1, PickCanary(o.cfg, o.rows);
            var runs := o.cfg.enabled && o.cfg.pinned != Some("");
            var first := s.status == Init || s.symbol.None?;
            && (d == DisabledByFlag <==> !o.cfg.enabled)
            && (d == DisabledByOperator <==> o.cfg.enabled && o.cfg.pinned == Some(""))
            && (d == NoTrustedPick <==> runs && pick.None?)
            && (d == Pick <==> runs && pick.Some? && first)
            && (runs && pick.Some? && !first && s.symbol.value != pick.value.symbol
                ==> d == if s.status == Promoted && WholeDays(s, o) >= o.cfg.window
                            && !IsMuchBetter(s, pick.value.expected)
                         then StickyPromoted
                         else Switch)
            && (d in {Pick, Switch} ==> Step(s, o).0.symbol == Some(pick.value.symbol) && Step(s, o).0.history == [])
            && (d !in {Pick, Switch} ==> Step(s, o).0.symbol == s.symbol)
  {
    var pick := PickCanary(o.cfg, o.rows);
    if pick.Some? { ProtectionReads(s, o, pick.value.expected); }
    hide PickCanary, DecaySeen, Outperforms, Grounded, Upsert, RowOf, Eligible, LargeUplift, DaysSince, IsMuchBetter,
      WholeDays;
  }

  /** The rows of earlier days, at most the newest 89. */
  function EarlierRows(h: seq<Row>, now: int): seq<Row> {
    var rows := if h != [] && h[|h| - 1].ts / 86_400 == now / 86_400 then h[..|h| - 1] else h;
    if |rows| > 89 then rows[|rows| - 89..] else rows
  }

  /** A check appends today's row, or replaces it, and refreshes what the entry hook
      reads. */
  lemma CheckRecords(s: State, o: Obs, p: Projection)
    requires Rechecks(s, o, p)
    ensures var (t, d) := Step(s, o);
            && t.control == o.cfg.control && t.lotMultiplier == o.cfg.lotMultiplier && t.history != []
            && var r := t.history[|t.history| - 1];
               && t.history == EarlierRows(s.history, o.now) + [r]
               && r.ts == o.now && r.decision == d && r.expected == p.expected
               && r.canaryPnl == (if o.cfg.window <= 0 then 0.0 else WindowTotal(o, p.symbol, 1))
               && r.controlPnl == (if o.cfg.window <= 0 then 0.0 else WindowTotal(o, o.cfg.control, 1))
  {
    LastIsToday(o, p.symbol);
    LastIsToday(o, o.cfg.control);
    var d := Step(s, o).1;
    UpsertIs(s.history, RowOf(o, p.symbol, p.expected, d));
    hide PickCanary, DecaySeen, Outperforms, Grounded, Upsert, EarlierRows, LastOrZero, Series, WindowTotal, Eligible;
  }

  lemma UpsertIs(h: seq<Row>, r: Row)
    ensures Upsert(h, r) == EarlierRows(h, r.ts) + [r]
  {}

  lemma LastIsToday(o: Obs, symbol: string)
    ensures LastOrZero(Series(o.trades, symbol, Day(o.now), o.cfg.window))
         == if o.cfg.window <= 0 then 0.0 else WindowTotal(o, symbol, 1)
  {
    hide DayPnl, TotalBetween;
    DayPnlIsTotal(o.trades, symbol, Today(o));
  }

  // ----- The entry hook --------------------------------------------------------------------

  /** Entries are enlarged exactly for the boosted canary's own symbol, by its
      multiplier, and never shrunk. */
  lemma MultiplierIs(s: State, symbol: string, vetoed: bool)
    ensures LotMultiplierFor(s, symbol, vetoed)
         == if !vetoed && (s.status == Picked || s.status == Promoted) && s.symbol == Some(symbol)
               && s.lotMultiplier >= 1.0
            then s.lotMultiplier
            else 1.0
  {
    match s.status case Picked => case Promoted => case _ =>
  }
}
