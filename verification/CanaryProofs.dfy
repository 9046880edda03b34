/** The canary over whole runs: how its boost is granted and lost, and what a
    promotion has observed. */
module CanaryProofs {
  import opened Numbers
  import opened Canary
  import opened DailyPnl

  function Run(s: State, obs: seq<Obs>): State {
    if obs == [] then s else Step(Run(s, obs[..|obs| - 1]), obs[|obs| - 1]).0
  }

  function DecisionAt(s: State, obs: seq<Obs>, n: nat): Decision
    requires n < |obs|
  {
    Step(Run(s, obs[..n]), obs[n]).1
  }

  // ----- The pick ------------------------------------------------------------------

  /** Trusted, on at least 30 trades. */
  predicate Qualifies(r: Projection) { r.trusted && r.n >= 30 }

  lemma TrustedIs()
    ensures forall r :: Trusted(r) <==> Qualifies(r)
  {}

  /** Index k holds the first trusted row of the highest projection. */
  predicate FirstBest(rows: seq<Projection>, k: int) {
    && 0 <= k < |rows| && Qualifies(rows[k])
    && (forall i :: 0 <= i < |rows| && Qualifies(rows[i]) ==> rows[i].expected <= rows[k].expected)
    && (forall i :: 0 <= i < k && Qualifies(rows[i]) ==> rows[i].expected < rows[k].expected)
  }

  /** Index k holds the first trusted row of the symbol. */
  predicate FirstPinned(rows: seq<Projection>, symbol: string, k: int) {
    && 0 <= k < |rows| && Qualifies(rows[k]) && rows[k].symbol == symbol
    && (forall i :: 0 <= i < k && Qualifies(rows[i]) ==> rows[i].symbol != symbol)
  }

  predicate NoneTrusted(rows: seq<Projection>) { forall i :: 0 <= i < |rows| ==> !Qualifies(rows[i]) }

  lemma {:induction false} NoBestRow(rows: seq<Projection>)
    ensures BestRow(rows).None? <==> NoneTrusted(rows)
  {
    TrustedIs();
    hide Trusted, Qualifies;
    if rows != [] {
      var n := |rows| - 1;
      NoBestRow(rows[..n]);
      assert forall i :: 0 <= i < n ==> rows[..n][i] == rows[i];
    }
  }

  lemma {:induction false} BestRowIsFirstBest(rows: seq<Projection>) returns (k: nat)
    requires BestRow(rows).Some?
    ensures FirstBest(rows, k) && rows[k] == BestRow(rows).value
  {
    TrustedIs();
    hide Trusted, Qualifies;
    var n := |rows| - 1;
    assert forall i :: 0 <= i < n ==> rows[..n][i] == rows[i];
    if BestRow(rows[..n]).Some? {
      k := BestRowIsFirstBest(rows[..n]);
      if BestRow(rows) != BestRow(rows[..n]) { k := n; }
    } else {
      NoBestRow(rows[..n]);
      k := n;
    }
  }

  lemma {:induction false} PinnedRowIsFirst(rows: seq<Projection>, symbol: string) returns (k: int)
    ensures if PinnedRow(rows, symbol).Some?
            then FirstPinned(rows, symbol, k) && rows[k] == PinnedRow(rows, symbol).value
            else forall i :: 0 <= i < |rows| && Qualifies(rows[i]) ==> rows[i].symbol != symbol
  {
    TrustedIs();
    hide Trusted, Qualifies;
    k := -1;
    if rows != [] {
      var n := |rows| - 1;
      assert forall i :: 0 <= i < n ==> rows[..n][i] == rows[i];
      k := PinnedRowIsFirst(rows[..n], symbol);
      if PinnedRow(rows[..n], symbol).None? { k := n; }
    }
  }

  /** The pick is the first trusted row of the pinned symbol, else the first
      trusted row of the highest projection, and there is none only when no row
      qualifies or the operator vetoed. */
  lemma PickIsBestTrusted(c: Config, rows: seq<Projection>)
    ensures var p := PickCanary(c, rows);
            && (p.Some? && c.pinned.None? ==> exists k :: FirstBest(rows, k) && rows[k] == p.value)
            && (p.Some? && c.pinned.Some? ==> exists k :: FirstPinned(rows, c.pinned.value, k) && rows[k] == p.value)
            && (p.None? ==> c.pinned == Some("") || NoneTrusted(rows)
                            || (c.pinned.Some? && forall k :: !FirstPinned(rows, c.pinned.value, k)))
  {
    TrustedIs();
    hide Trusted, Qualifies, BestRow, PinnedRow;
    if c.pinned.None? {
      NoBestRow(rows);
      if BestRow(rows).Some? { var k := BestRowIsFirstBest(rows); }
    } else {
      var k := PinnedRowIsFirst(rows, c.pinned.value);
    }
  }

  // ----- The boost is granted by a pick and lost one way --------------------------------

  predicate Boosted(s: State) { s.status in {Picked, Promoted} }

  predicate Grants(d: Decision) { d in {Pick, Switch} }

  predicate Revokes(d: Decision) { d in {DecayDemote, Demote, DisabledByFlag, DisabledByOperator} }

  /** A boosted or once-picked state names its symbol. */
  predicate Named(s: State) { s.symbol.None? ==> s.status in {Init, Disabled, NoTrusted} }

  lemma BoostStep(s: State, o: Obs)
    requires Named(s)
    ensures var (s', d) := Step(s, o);
            && Named(s')
            && (Boosted(s') <==> Grants(d) || (Boosted(s) && !Revokes(d)))
  {
    hide PickCanary, DecaySeen, Outperforms, Grounded, Upsert, Sticky, RowOf;
  }

  lemma UnboostedStep(s: State, o: Obs)
    requires !Boosted(s) && !Grants(Step(s, o).1)
    ensures !Boosted(Step(s, o).0)
  {
    hide PickCanary, DecaySeen, Outperforms, Grounded, Upsert, Sticky, RowOf;
  }

  /** The last decision that granted or revoked was a grant. */
  predicate Granted(ds: seq<Decision>) {
    ds != []
    && var d := ds[|ds| - 1];
       Grants(d) || (!Revokes(d) && Granted(ds[..|ds| - 1]))
  }

  function Decisions(s: State, obs: seq<Obs>): seq<Decision> {
    if obs == [] then []
    else
      var n := |obs| - 1;
      Decisions(s, obs[..n]) + [DecisionAt(s, obs, n)]
  }

  /** In every run the canary is boosted exactly when its last granting or revoking
      decision was a pick or a switch. */
  lemma {:induction false} BoostIsAnUnrevokedPick(obs: seq<Obs>)
    ensures Named(Run(FRESH, obs)) && (Boosted(Run(FRESH, obs)) <==> Granted(Decisions(FRESH, obs)))
  {
    hide Step, Named, Boosted, Grants, Revokes;
    if obs == [] {
      FreshIsPlain();
    } else {
      var n := |obs| - 1;
      BoostIsAnUnrevokedPick(obs[..n]);
      BoostStep(Run(FRESH, obs[..n]), obs[n]);
      var ds := Decisions(FRESH, obs[..n]);
      assert (ds + [DecisionAt(FRESH, obs, n)])[..|ds|] == ds;
    }
  }

  lemma FreshIsPlain()
    ensures Named(FRESH) && !Boosted(FRESH)
  {}

  /** Without a pick or switch, a state whose boost is gone never regains a
      multiplier above 1 for any symbol. */
  lemma {:induction false} BoostIsLostOneWay(s: State, obs: seq<Obs>)
    requires !Boosted(s)
    requires forall n :: 0 <= n < |obs| ==> !Grants(DecisionAt(s, obs, n))
    ensures !Boosted(Run(s, obs))
    ensures forall symbol, vetoed :: LotMultiplierFor(Run(s, obs), symbol, vetoed) == 1.0
  {
    hide Step, Grants, Boosted, LotMultiplierFor;
    if obs != [] {
      var n := |obs| - 1;
      forall k | 0 <= k < n ensures !Grants(DecisionAt(s, obs[..n], k)) {
        assert obs[..n][..k] == obs[..k];
        assert !Grants(DecisionAt(s, obs, k));
      }
      BoostIsLostOneWay(s, obs[..n]);
      assert !Grants(DecisionAt(s, obs, n));
      UnboostedStep(Run(s, obs[..n]), obs[n]);
    }
    forall symbol, vetoed ensures LotMultiplierFor(Run(s, obs), symbol, vetoed) == 1.0 {
      UnboostedIsPlain(Run(s, obs), symbol, vetoed);
    }
  }

  lemma UnboostedIsPlain(s: State, symbol: string, vetoed: bool)
    requires !Boosted(s)
    ensures LotMultiplierFor(s, symbol, vetoed) == 1.0
  {
    match s.status case Picked => case Promoted => case _ =>
  }

  // ----- Promotion needs observed days ----------------------------------------------------

  predicate Clocked(obs: seq<Obs>) { forall i :: 0 < i < |obs| ==> obs[i - 1].now <= obs[i].now }

  predicate Checks(d: Decision) { d in {DecayDemote, Promote, Demote, ContinueNoData, Continue} }

  /** The distinct UTC days on which the canary was checked since its last pick
      or switch. */
  function ObservedDays(s: State, obs: seq<Obs>): set<int> {
    if obs == [] then {}
    else
      var n := |obs| - 1;
      var d := DecisionAt(s, obs, n);
      if Grants(d) then {}
      else if Checks(d) then ObservedDays(s, obs[..n]) + {Day(obs[n].now)}
      else ObservedDays(s, obs[..n])
  }

  /** The history has one row for each observed day, up to 90, and ends on the
      latest one. */
  predicate HistoryOf(h: seq<Row>, days: set<int>, today: int) {
    && |h| == (if |days| < HISTORY then |days| else HISTORY)
    && (forall d :: d in days ==> d <= today)
    && (h != [] ==> Day(h[|h| - 1].ts) in days && forall d :: d in days ==> d <= Day(h[|h| - 1].ts))
  }

  lemma UpsertTracksDays(h: seq<Row>, r: Row, days: set<int>, today: int)
    requires HistoryOf(h, days, today) && today <= Day(r.ts)
    ensures HistoryOf(Upsert(h, r), days + {Day(r.ts)}, Day(r.ts))
  {
    hide Day;
    var d := Day(r.ts);
    if d in days {
      assert days + {d} == days;
      assert |days| > 0;
    } else {
      assert |days + {d}| == |days| + 1;
    }
  }

  lemma StepTracksDays(s: State, o: Obs, days: set<int>, today: int)
    requires HistoryOf(s.history, days, today) && today <= Day(o.now)
    ensures var (s', d) := Step(s, o);
            HistoryOf(s'.history, if Grants(d) then {} else if Checks(d) then days + {Day(o.now)} else days, Day(o.now))
  {
    hide PickCanary, DecaySeen, Outperforms, Grounded, Upsert, Sticky, Day, Eligible, LastOrZero, Series;
    var (s', d) := Step(s, o);
    if Checks(d) {
      var p := PickCanary(o.cfg, o.rows).value;
      UpsertTracksDays(s.history, RowOf(o, p.symbol, p.expected, d), days, today);
    }
  }

  lemma {:induction false} HistoryTracksDays(obs: seq<Obs>, today: int)
    requires Clocked(obs) && (obs != [] ==> today == Day(obs[|obs| - 1].now))
    ensures HistoryOf(Run(FRESH, obs).history, ObservedDays(FRESH, obs), today)
  {
    hide Step, Grants, Checks, Day, HistoryOf;
    if obs == [] {
      NoHistory(today);
    } else {
      var n := |obs| - 1;
      var before := if n > 0 then Day(obs[n - 1].now) else Day(obs[n].now);
      HistoryTracksDays(obs[..n], before);
      if n > 0 { DayMonotone(obs[n - 1].now, obs[n].now); }
      StepTracksDays(Run(FRESH, obs[..n]), obs[n], ObservedDays(FRESH, obs[..n]), before);
    }
  }

  lemma NoHistory(today: int)
    ensures HistoryOf(FRESH.history, {}, today)
  {}

  lemma DayMonotone(a: int, b: int)
    requires a <= b
    ensures Day(a) <= Day(b)
  {}

  lemma PromoteIsEligible(s: State, o: Obs)
    requires Step(s, o).1 == Promote
    ensures Eligible(s, o.cfg.window)
  {
    hide PickCanary, DecaySeen, Outperforms, Grounded, Upsert, Sticky, RowOf, Eligible;
  }

  /** A promotion has at least the configured window of distinct UTC days behind it
      since the last pick or switch, however often a day is re-run; a window longer
      than the 90 rows kept can never be met. */
  lemma PromotionNeedsDays(obs: seq<Obs>, n: nat)
    requires Clocked(obs) && n < |obs| && DecisionAt(FRESH, obs, n) == Promote
    ensures |ObservedDays(FRESH, obs[..n])| >= obs[n].cfg.window
    ensures obs[n].cfg.window <= HISTORY
  {
    hide Step, Day;
    HistoryTracksDays(obs[..n], if n > 0 then Day(obs[n - 1].now) else 0);
    PromoteIsEligible(Run(FRESH, obs[..n]), obs[n]);
  }

  // ----- Stickiness ----------------------------------------------------------------------

  /** The intended protection: a promoted canary is switched away from only after
      the window and for a 25% larger projection. */
  predicate ProtectedAsIntended(s: State, o: Obs, expected: real) {
    Step(s, o).1 == Switch ==> IsMuchBetter(s, expected) && WholeDays(s, o) >= o.cfg.window
  }

  /** At least a quarter above the positive projection last recorded. */
  predicate IsMuchBetter(s: State, expected: real) {
    s.history != []
    && var last := s.history[|s.history| - 1].expected; last > 0.0 && 4.0 * expected >= 5.0 * last
  }

  /** Whole UTC-length days since the promotion, 0 without one. */
  function WholeDays(s: State, o: Obs): int { if s.promotedAt.Some? then (o.now - s.promotedAt.value) / 86_400 else 0 }

  lemma ProtectionReads(s: State, o: Obs, expected: real)
    ensures LargeUplift(s, expected) <==> IsMuchBetter(s, expected)
    ensures DaysSince(s.promotedAt, o.now) == WholeDays(s, o)
  {}

  predicate FacesOtherPick(s: State, o: Obs) {
    var p := PickCanary(o.cfg, o.rows);
    o.cfg.enabled && o.cfg.pinned != Some("") && p.Some? && s.symbol.Some? && s.symbol.value != p.value.symbol
  }

  /** The protection holds exactly once the window has passed: a canary promoted
      more recently is dropped for any other pick. */
  lemma ProtectionStartsAfterTheWindow(s: State, o: Obs)
    requires s.status == Promoted && FacesOtherPick(s, o)
    ensures ProtectedAsIntended(s, o, PickCanary(o.cfg, o.rows).value.expected)
       <==> WholeDays(s, o) >= o.cfg.window
  {
    ProtectionReads(s, o, PickCanary(o.cfg, o.rows).value.expected);
    hide PickCanary, LargeUplift, DaysSince, IsMuchBetter, WholeDays;
  }

  /** Promoted an hour ago, a smaller projection elsewhere: the canary is dropped. */
  lemma FreshPromotionIsDropped()
    ensures var c := Config(true, None, 1.5, "XAUUSDm", 0.5, 7, 14, 1.0);
            var o := Obs(c, 1_003_600, [Projection("B", true, 30, 1.0)], []);
            var s := FRESH.(status := Promoted, symbol := Some("A"), promotedAt := Some(1_000_000),
                            history := [Row(1_000_000, Promote, 5.0, 0.0, 100.0)]);
            Step(s, o).1 == Switch && !LargeUplift(s, 1.0) && Step(s, o).0.symbol == Some("B")
  {
    var rows := [Projection("B", true, 30, 1.0)];
    assert rows[..0] == [] && BestRow(rows) == Some(rows[0]);
  }

  // ----- Decay ----------------------------------------------------------------------------

  /** The decay test is the coded one, stated on standard deviations. */
  lemma DecayComparesDeviations(half: seq<real>, projection: real, sigma: real, std: real)
    requires IsStd(half, std)
    ensures HalfDiverges(half, projection, sigma)
       <==> projection != 0.0 && std > NOTHING && Abs(Sum(half) / |half| as real - projection) > sigma * std
  {
    hide Variance, Mean, MomentVariance, ExceedsStds;
    VarianceByMoments(half);
    MeanIs(half);
    var v, diff := Variance(half), Mean(half) - projection;
    assert std * std == v;
    SquareOrder(std, NOTHING);
    if std > 0.0 { ExceedsBySquares(diff, sigma, std); }
  }
}
