/** HALT and recovery over whole runs of the edge monitor. */
module EdgeMonitorProofs {
  import opened DailyPnl
  import opened EdgeMonitor
  import opened Numbers

  function Run(c: Config, obs: seq<Obs>): State {
    if obs == [] then FRESH else Evaluate(c, Run(c, obs[..|obs| - 1]), obs[|obs| - 1])
  }

  predicate Clocked(obs: seq<Obs>) { forall i :: 0 < i < |obs| ==> obs[i - 1].now <= obs[i].now }

  // ----- Streaks ---------------------------------------------------------------

  /** An evaluated observation with at least one diverging half. */
  predicate OutOfBand(c: Config, o: Obs) { Evaluated(o) && !InBand(c, o) }

  predicate InBandSeen(c: Config, o: Obs) { Evaluated(o) && InBand(c, o) }

  /** Where the current streak starts: just after the last out-of-band observation. */
  function StreakStart(c: Config, obs: seq<Obs>): (k: nat)
    ensures k <= |obs|
  {
    if obs == [] then 0
    else if OutOfBand(c, obs[|obs| - 1]) then |obs|
    else StreakStart(c, obs[..|obs| - 1])
  }

  /** Distinct UTC days with an in-band observation. */
  function InBandDays(c: Config, obs: seq<Obs>): set<int> {
    set i | 0 <= i < |obs| && InBandSeen(c, obs[i]) :: Day(obs[i].now)
  }

  function StreakDays(c: Config, obs: seq<Obs>): set<int> { InBandDays(c, obs[StreakStart(c, obs)..]) }

  lemma StreakDaysSnoc(c: Config, obs: seq<Obs>, o: Obs)
    ensures StreakDays(c, obs + [o])
         == if OutOfBand(c, o) then {}
            else if InBandSeen(c, o) then StreakDays(c, obs) + {Day(o.now)}
            else StreakDays(c, obs)
  {
    hide Evaluated, InBand;
    var all, k := obs + [o], StreakStart(c, obs);
    assert all[..|obs|] == obs;
    if OutOfBand(c, o) {
      assert all[|all|..] == [];
    } else {
      assert all[k..] == obs[k..] + [o];
      InBandDaysSnoc(c, obs[k..], o);
    }
  }

  lemma InBandDaysSnoc(c: Config, obs: seq<Obs>, o: Obs)
    ensures InBandDays(c, obs + [o])
         == if InBandSeen(c, o) then InBandDays(c, obs) + {Day(o.now)} else InBandDays(c, obs)
  {
    hide InBandSeen, Day;
    var all := obs + [o];
    assert forall i :: 0 <= i < |obs| ==> all[i] == obs[i];
    assert all[|obs|] == o;
    forall d
      ensures d in InBandDays(c, all) <==> d in InBandDays(c, obs) || (InBandSeen(c, o) && d == Day(o.now))
    {
      if d in InBandDays(c, obs) {
        var i :| 0 <= i < |obs| && InBandSeen(c, obs[i]) && d == Day(obs[i].now);
        assert InBandSeen(c, all[i]);
      }
    }
  }

  predicate CleanFrom(c: Config, obs: seq<Obs>, k: nat) {
    forall i :: k <= i < |obs| ==> !OutOfBand(c, obs[i])
  }

  lemma {:induction false} StreakIsInBand(c: Config, obs: seq<Obs>)
    ensures CleanFrom(c, obs, StreakStart(c, obs))
  {
    if obs != [] && !OutOfBand(c, obs[|obs| - 1]) {
      StreakIsInBand(c, obs[..|obs| - 1]);
      forall i | StreakStart(c, obs) <= i < |obs|
        ensures !OutOfBand(c, obs[i])
      {
        if i < |obs| - 1 { assert obs[i] == obs[..|obs| - 1][i]; }
      }
    }
  }

  // ----- The counter against the days -----------------------------------------

  /** The counter is the number of distinct days of the streak, or one less (when
      HALT was entered on a day already counted). */
  predicate CounterInv(c: Config, s: State, days: set<int>, today: int) {
    && |days| - 1 <= s.inBand <= |days|
    && (forall d :: d in days ==> d <= today)
    && (s.lastInBandDay.Some? ==> s.lastInBandDay.value <= today)
    && (days != {} ==> s.lastInBandDay.Some? && s.lastInBandDay.value in days
                       && forall d :: d in days ==> d <= s.lastInBandDay.value)
    && (s.status == Halt ==> s.inBand < c.recoveryRequired || s.inBand == 0)
    && s.status != CoolingOff
  }

  lemma DayMonotone(a: int, b: int)
    requires a <= b
    ensures Day(a) <= Day(b)
  {}

  lemma CounterStep(c: Config, s: State, days: set<int>, today: int, o: Obs)
    requires CounterInv(c, s, days, today) && today <= Day(o.now)
    ensures var days' := if OutOfBand(c, o) then {} else if InBandSeen(c, o) then days + {Day(o.now)} else days;
            CounterInv(c, Evaluate(c, s, o), days', Day(o.now))
  {
    hide DivergesA, DivergesB, Evaluated, Upsert, Day;
    if InBandSeen(c, o) {
      var d := Day(o.now);
      if d in days {
        assert s.lastInBandDay == Some(d) && days + {d} == days;
      } else {
        assert |days + {d}| == |days| + 1;
      }
    }
  }

  function LastDay(obs: seq<Obs>, otherwise: int): int {
    if obs == [] then otherwise else Day(obs[|obs| - 1].now)
  }

  lemma ClockedPrefix(obs: seq<Obs>, otherwise: int)
    requires Clocked(obs) && obs != []
    ensures var n := |obs| - 1;
            Clocked(obs[..n]) && LastDay(obs[..n], LastDay(obs, otherwise)) <= Day(obs[n].now)
  {
    var n := |obs| - 1;
    if n > 0 { DayMonotone(obs[n - 1].now, obs[n].now); }
  }

  lemma RunStep(c: Config, obs: seq<Obs>, o: Obs)
    ensures Run(c, obs + [o]) == Evaluate(c, Run(c, obs), o)
  {
    assert (obs + [o])[..|obs|] == obs;
  }

  lemma {:induction false} CounterTracksDays(c: Config, obs: seq<Obs>, otherwise: int)
    requires Clocked(obs)
    ensures CounterInv(c, Run(c, obs), StreakDays(c, obs), LastDay(obs, otherwise))
  {
    if obs == [] {
      assert InBandDays(c, []) == {};
    } else {
      hide Run, Evaluate, OutOfBand, InBandSeen, StreakDays, CounterInv, Day, Clocked;
      var prev, o := obs[..|obs| - 1], obs[|obs| - 1];
      var today := Day(o.now);
      ClockedPrefix(obs, otherwise);
      CounterTracksDays(c, prev, today);
      CounterStep(c, Run(c, prev), StreakDays(c, prev), LastDay(prev, today), o);
      StreakDaysSnoc(c, prev, o);
      RunStep(c, prev, o);
      assert prev + [o] == obs;
    }
  }

  // ----- HALT entries and releases --------------------------------------------

  function StatusAt(c: Config, obs: seq<Obs>, n: nat): Status
    requires n <= |obs|
  {
    Run(c, obs[..n]).status
  }

  /** Observation e put the symbol on HALT. */
  predicate Enters(c: Config, obs: seq<Obs>, e: nat)
    requires e < |obs|
  {
    StatusAt(c, obs, e) != Halt && StatusAt(c, obs, e + 1) == Halt
  }

  /** On HALT after each of observations e to n - 1. */
  predicate HaltThrough(c: Config, obs: seq<Obs>, e: nat, n: nat)
    requires n <= |obs|
  {
    forall k :: e < k <= n ==> StatusAt(c, obs, k) == Halt
  }

  predicate HaltedSince(c: Config, obs: seq<Obs>, e: nat)
    requires e < |obs|
  {
    Enters(c, obs, e) && HaltThrough(c, obs, e, |obs|)
  }

  lemma EntryIsOutOfBand(c: Config, s: State, o: Obs)
    requires s.status != Halt && Evaluate(c, s, o).status == Halt
    ensures OutOfBand(c, o) && Evaluate(c, s, o).haltCount == s.haltCount + 1
  {
    hide DivergesA, DivergesB, Evaluated, Upsert;
  }

  lemma ReleaseIsInBand(c: Config, s: State, o: Obs)
    requires s.status == Halt && Evaluate(c, s, o).status != Halt
    ensures InBandSeen(c, o) && Evaluate(c, s, o).status == Ok && Evaluate(c, s, o).inBand >= c.recoveryRequired
  {
    hide DivergesA, DivergesB, Evaluated, Upsert;
  }

  lemma PrefixStatus(c: Config, obs: seq<Obs>, m: nat, n: nat)
    requires n <= m <= |obs|
    ensures StatusAt(c, obs[..m], n) == StatusAt(c, obs, n)
  {
    assert obs[..m][..n] == obs[..n];
  }

  lemma HaltSpan(c: Config, obs: seq<Obs>, n: nat, e: nat)
    requires e < n <= |obs| && HaltedSince(c, obs[..n], e)
    ensures Enters(c, obs, e) && HaltThrough(c, obs, e, n)
  {
    hide StatusAt;
    forall k | e <= k <= n
      ensures StatusAt(c, obs[..n], k) == StatusAt(c, obs, k)
    {
      PrefixStatus(c, obs, n, k);
    }
  }

  lemma StartsOk(c: Config, obs: seq<Obs>)
    ensures StatusAt(c, obs, 0) == Ok
  {}

  lemma HaltOneMore(c: Config, obs: seq<Obs>, e: nat)
    requires obs != [] && HaltThrough(c, obs, e, |obs| - 1) && StatusAt(c, obs, |obs|) == Halt
    ensures HaltThrough(c, obs, e, |obs|)
  {
    hide StatusAt;
  }

  lemma EntersNow(c: Config, obs: seq<Obs>)
    requires obs != [] && StatusAt(c, obs, |obs| - 1) != Halt && StatusAt(c, obs, |obs|) == Halt
    ensures HaltedSince(c, obs, |obs| - 1) && OutOfBand(c, obs[|obs| - 1])
  {
    hide Run, Evaluate, OutOfBand;
    var prev, o := obs[..|obs| - 1], obs[|obs| - 1];
    var s := Run(c, prev);
    assert s.status != Halt;
    assert Evaluate(c, s, o).status == Halt by {
      assert obs[..|obs|] == prev + [o];
      RunStep(c, prev, o);
    }
    EntryIsOutOfBand(c, s, o);
    hide StatusAt;
  }

  lemma {:induction false} HaltHasAnEntry(c: Config, obs: seq<Obs>) returns (e: nat)
    requires obs != [] && StatusAt(c, obs, |obs|) == Halt
    ensures e < |obs| && HaltedSince(c, obs, e) && OutOfBand(c, obs[e])
  {
    var n := |obs| - 1;
    if StatusAt(c, obs, n) != Halt {
      hide StatusAt, OutOfBand, HaltedSince;
      EntersNow(c, obs);
      e := n;
    } else {
      hide StatusAt, OutOfBand, HaltThrough, Enters;
      StartsOk(c, obs);
      PrefixStatus(c, obs, n, n);
      e := HaltHasAnEntry(c, obs[..n]);
      HaltSpan(c, obs, n, e);
      HaltOneMore(c, obs, e);
    }
  }

  /** Observation e entered HALT, which lasted to the last observation; from k on
      nothing is out of band, and the in-band observations there fall on at least
      `recoveryRequired` distinct days. */
  predicate EarnedRelease(c: Config, obs: seq<Obs>, e: nat, k: nat) {
    && e < k <= |obs| && Enters(c, obs, e) && HaltThrough(c, obs, e, |obs| - 1)
    && CleanFrom(c, obs, k) && |InBandDays(c, obs[k..])| >= c.recoveryRequired
  }

  lemma ReleaseStep(c: Config, obs: seq<Obs>)
    requires obs != [] && StatusAt(c, obs, |obs| - 1) == Halt && Run(c, obs).status != Halt
    ensures Run(c, obs).inBand >= c.recoveryRequired && |obs| > 1 && StatusAt(c, obs[..|obs| - 1], |obs| - 1) == Halt
  {
    hide Run, Evaluate, InBandSeen;
    var prev, o := obs[..|obs| - 1], obs[|obs| - 1];
    assert obs == prev + [o];
    assert prev[..|prev|] == prev;
    RunStep(c, prev, o);
    ReleaseIsInBand(c, Run(c, prev), o);
    hide StatusAt;
    StartsOk(c, obs);
  }

  lemma EntryIsBefore(c: Config, obs: seq<Obs>, e: nat)
    requires e < |obs| && OutOfBand(c, obs[e])
    ensures e < StreakStart(c, obs)
  {
    StreakIsInBand(c, obs);
  }

  /** HALT release: when an observation takes a symbol off HALT there is the entry
      e that put it there, and after e a stretch without any evaluated out-of-band
      observation that holds in-band observations on at least `recoveryRequired`
      distinct UTC days, however often the tick is re-run within a day. */
  lemma ReleaseNeedsDistinctDays(c: Config, obs: seq<Obs>)
    requires Clocked(obs) && obs != []
    requires StatusAt(c, obs, |obs| - 1) == Halt && Run(c, obs).status != Halt
    ensures exists e, k :: EarnedRelease(c, obs, e, k)
  {
    hide Run, StatusAt, Clocked, OutOfBand, CounterInv, HaltThrough, HaltedSince, Enters, InBandDays, CleanFrom,
      StreakStart;
    var n, k := |obs| - 1, StreakStart(c, obs);
    ReleaseStep(c, obs);
    var e := HaltHasAnEntry(c, obs[..n]);
    assert obs[e] == obs[..n][e];
    EntryIsBefore(c, obs, e);
    HaltSpan(c, obs, n, e);
    StreakIsInBand(c, obs);
    CounterTracksDays(c, obs, 0);
    CounterBounds(c, Run(c, obs), StreakDays(c, obs), LastDay(obs, 0));
    assert EarnedRelease(c, obs, e, k);
  }

  lemma CounterBounds(c: Config, s: State, days: set<int>, today: int)
    requires CounterInv(c, s, days, today)
    ensures s.inBand <= |days| <= s.inBand + 1
    ensures s.status == Halt && c.recoveryRequired >= 1 ==> s.inBand < c.recoveryRequired
  {}

  /** And release is not withheld: a symbol still on HALT has had at most
      `recoveryRequired` distinct in-band days since its last out-of-band one. */
  lemma HaltIsNotOverlong(c: Config, obs: seq<Obs>)
    requires Clocked(obs) && c.recoveryRequired >= 1 && Run(c, obs).status == Halt
    ensures |StreakDays(c, obs)| <= c.recoveryRequired
  {
    CounterTracksDays(c, obs, 0);
    CounterBounds(c, Run(c, obs), StreakDays(c, obs), LastDay(obs, 0));
  }

  function Entries(c: Config, obs: seq<Obs>): nat {
    if obs == [] then 0
    else
      var n := |obs| - 1;
      Entries(c, obs[..n])
      + if Run(c, obs[..n]).status != Halt && Run(c, obs).status == Halt then 1 else 0
  }

  /** halt_entered_count is the number of HALT entries of the run. */
  lemma {:induction false} HaltCountIsEntries(c: Config, obs: seq<Obs>)
    ensures Run(c, obs).haltCount == Entries(c, obs)
  {
    if obs != [] {
      var n := |obs| - 1;
      HaltCountIsEntries(c, obs[..n]);
      HaltCountStep(c, Run(c, obs[..n]), obs[n]);
    }
  }

  lemma HaltCountStep(c: Config, s: State, o: Obs)
    ensures var s' := Evaluate(c, s, o);
            s'.haltCount == s.haltCount + if s.status != Halt && s'.status == Halt then 1 else 0
  {
    hide DivergesA, DivergesB, Evaluated, Upsert;
  }

  // ----- History ----------------------------------------------------------------

  /** At most 90 rows, one per day, in order, none later than `today`. */
  predicate HistoryInv(h: seq<Row>, today: int) {
    && |h| <= HISTORY && (forall i :: 0 < i < |h| ==> Day(h[i - 1].ts) < Day(h[i].ts))
    && (h != [] ==> Day(h[|h| - 1].ts) <= today)
  }

  lemma UpsertKeepsHistory(h: seq<Row>, r: Row, today: int)
    requires HistoryInv(h, today) && today <= Day(r.ts)
    ensures HistoryInv(Upsert(h, r), Day(r.ts)) && Upsert(h, r) != [] && Upsert(h, r)[|Upsert(h, r)| - 1] == r
  {
    hide Day;
  }

  /** The history never holds two rows of the same UTC day nor more than 90. */
  lemma {:induction false} HistoryHasOneRowPerDay(c: Config, obs: seq<Obs>, otherwise: int)
    requires Clocked(obs)
    ensures HistoryInv(Run(c, obs).history, LastDay(obs, otherwise))
  {
    if obs != [] {
      hide Evaluate, HistoryInv;
      var prev, o := obs[..|obs| - 1], obs[|obs| - 1];
      var today := Day(o.now);
      ClockedPrefix(obs, otherwise);
      HistoryHasOneRowPerDay(c, prev, today);
      HistoryStep(c, Run(c, prev), o, LastDay(prev, today));
    }
  }

  lemma HistoryStep(c: Config, s: State, o: Obs, before: int)
    requires HistoryInv(s.history, before) && before <= Day(o.now)
    ensures HistoryInv(Evaluate(c, s, o).history, Day(o.now))
  {
    hide DivergesA, DivergesB, Evaluated, Upsert, HistoryInv;
    HistoryLater(s.history, before, Day(o.now));
    var d := Transition(c, s, o);
    UpsertKeepsHistory(s.history, Row(o.now, d.1, d.0.status, d.0.inBand), before);
  }

  lemma HistoryLater(h: seq<Row>, today: int, later: int)
    requires HistoryInv(h, today) && today <= later
    ensures HistoryInv(h, later)
  {}

  /** COOLING_OFF is never reached: the entry block is exactly HALT. */
  lemma OnlyHaltBlocks(c: Config, obs: seq<Obs>)
    requires Clocked(obs)
    ensures IsHalted(Run(c, obs)) <==> Run(c, obs).status == Halt
  {
    CounterTracksDays(c, obs, 0);
  }

  // ----- The square-root-free test ----------------------------------------------

  /** The divergence test is the coded one, stated on standard deviations. */
  lemma DivergenceComparesDeviations(half: seq<real>, projection: real, sigma: real, std: real)
    requires IsStd(half, std)
    ensures Diverges(half, projection, sigma)
       <==> && |half| >= 2 && projection != 0.0
            && var diff := Abs(Sum(half) / |half| as real - projection);
               if std < MIN_STD then diff > FLOOR_USD else diff > sigma * std
  {
    hide Variance, Mean, MomentVariance, ExceedsStds;
    VarianceByMoments(half);
    MeanIs(half);
    var v, diff := Variance(half), Mean(half) - projection;
    assert std * std == v;
    SquareOrder(MIN_STD, std);
    if std > 0.0 { ExceedsBySquares(diff, sigma, std); }
  }

  // ----- The documented band and the coded one -----------------------------------

  /** Recovery as documented: both halves' means within one standard deviation. */
  predicate InDocumentedBand(c: Config, o: Obs) {
    !Diverges(HalfA(c, o), o.projection, 1.0) && !Diverges(HalfB(c, o), o.projection, 1.0)
  }

  /** Off by more than `lower` deviations and at most `upper` of them. */
  predicate Between(half: seq<real>, projection: real, lower: real, upper: real) {
    |half| >= 2 && projection != 0.0 && Variance(half) >= MIN_STD * MIN_STD
    && var diff := Mean(half) - projection;
       ExceedsStds(diff, lower, Variance(half)) && !ExceedsStds(diff, upper, Variance(half))
  }

  /** One half between one and sigma deviations off, whichever of the two is the smaller
      first, and the other half not diverging at the larger. */
  predicate OneHalfBetween(half: seq<real>, other: seq<real>, projection: real, sigma: real) {
    var lower, upper := Min(sigma, 1.0), Max(sigma, 1.0);
    Between(half, projection, lower, upper) && !Diverges(other, projection, upper)
  }

  lemma MoreDeviations(diff: real, lower: real, upper: real, variance: real)
    requires lower <= upper && upper >= 0.0 && variance >= 0.0 && ExceedsStds(diff, upper, variance)
    ensures ExceedsStds(diff, lower, variance)
  {
    if lower >= 0.0 {
      var d, t := upper - lower, upper + lower;
      assert d * t == upper * upper - lower * lower;
      PositiveProduct(d, t);
      PositiveProduct(d * t, variance);
      Distribute(upper * upper, lower * lower, variance);
    }
  }

  lemma WiderBand(half: seq<real>, projection: real, lower: real, upper: real)
    requires lower <= upper && upper >= 0.0
    ensures Diverges(half, projection, lower)
       <==> Diverges(half, projection, upper) || Between(half, projection, lower, upper)
    ensures Between(half, projection, lower, upper) ==> !Diverges(half, projection, upper)
  {
    hide Mean, Variance, ExceedsStds;
    if |half| >= 2 {
      var diff, v := Mean(half) - projection, Variance(half);
      if v >= MIN_STD * MIN_STD && ExceedsStds(diff, upper, v) { MoreDeviations(diff, lower, upper, v); }
    }
  }

  /** The coded in-band test and the documented one differ exactly when one half lies
      between one and sigma deviations off and the other does not diverge at the
      larger of the two. */
  lemma BandsDifferIff(c: Config, o: Obs)
    ensures !(InBand(c, o) <==> InDocumentedBand(c, o))
       <==> || OneHalfBetween(HalfA(c, o), HalfB(c, o), o.projection, c.sigma)
            || OneHalfBetween(HalfB(c, o), HalfA(c, o), o.projection, c.sigma)
  {
    hide Diverges, Between, HalfA, HalfB;
    var lower, upper := Min(c.sigma, 1.0), Max(c.sigma, 1.0);
    WiderBand(HalfA(c, o), o.projection, lower, upper);
    WiderBand(HalfB(c, o), o.projection, lower, upper);
  }

  // ----- A symbol one and a half deviations off counts as in band -------------------

  lemma CountSnoc(ts: seq<ClosedTrade>, t: ClosedTrade, symbol: string)
    ensures CountNonzero(ts + [t], symbol) == CountNonzero(ts, symbol) + if NonzeroClose(t, symbol) then 1 else 0
  {
    assert (ts + [t])[..|ts|] == ts;
  }

  lemma PairMean(x: real, y: real)
    ensures Mean([x, y]) == (x + y) / 2.0
  {
    assert [x, y] == [x] + [y] && [x] == [] + [x];
    SumSnoc([x], y);
    SumSnoc([], x);
  }

  lemma PairVariance(x: real, y: real)
    ensures var d := (x - y) / 2.0; Variance([x, y]) == d * d
  {
    PairMean(x, y);
    hide Mean;
    var xs, d := [x, y], (x - y) / 2.0;
    var m := Mean(xs);
    var squares := seq(2, i requires 0 <= i < 2 => (xs[i] - m) * (xs[i] - m));
    assert x - m == d && y - m == -d;
    assert squares[0] == d * d;
    assert squares[1] == (-d) * (-d) == d * d;
    assert squares == [d * d, d * d];
    PairMean(d * d, d * d);
    assert Variance(xs) == Mean(squares);
  }

  function Trade(symbol: string, day: int, pnl: real): ClosedTrade { ClosedTrade(symbol, Some(day), pnl, 0.0) }

  /** n closes of a quarter of 10 USD on day 3. */
  function Quarters(symbol: string, n: nat): seq<ClosedTrade> {
    if n == 0 then [] else Quarters(symbol, n - 1) + [Trade(symbol, 3, 2.5)]
  }

  lemma {:induction false} QuartersTotal(symbol: string, n: nat, day: int)
    ensures DayPnl(Quarters(symbol, n), symbol, day) == if day == 3 then 2.5 * n as real else 0.0
  {
    if n > 0 {
      QuartersTotal(symbol, n - 1, day);
      DayPnlSnoc(Quarters(symbol, n - 1), Trade(symbol, 3, 2.5), symbol, day);
      hide DayPnl;
      assert n as real == (n - 1) as real + 1.0;
    }
  }

  lemma {:induction false} QuartersCount(symbol: string, n: nat)
    ensures CountNonzero(Quarters(symbol, n), symbol) == n
  {
    if n > 0 {
      QuartersCount(symbol, n - 1);
      CountSnoc(Quarters(symbol, n - 1), Trade(symbol, 3, 2.5), symbol);
      hide CountNonzero;
    }
  }

  /** Days of 10.5, 12.5, 10 and 10, the last one in four closes. */
  function FourDays(symbol: string): seq<ClosedTrade> {
    Quarters(symbol, 4) + [Trade(symbol, 0, 10.5)] + [Trade(symbol, 1, 12.5)] + [Trade(symbol, 2, 10.0)]
  }

  lemma FourDaysTotal(symbol: string, day: int)
    ensures DayPnl(FourDays(symbol), symbol, day)
         == if day == 0 then 10.5 else if day == 1 then 12.5 else if day == 2 || day == 3 then 10.0 else 0.0
  {
    QuartersTotal(symbol, 4, day);
    hide Quarters, DayPnl;
    var a := Quarters(symbol, 4) + [Trade(symbol, 0, 10.5)];
    DayPnlSnoc(Quarters(symbol, 4), Trade(symbol, 0, 10.5), symbol, day);
    DayPnlSnoc(a, Trade(symbol, 1, 12.5), symbol, day);
    DayPnlSnoc(a + [Trade(symbol, 1, 12.5)], Trade(symbol, 2, 10.0), symbol, day);
  }

  lemma FourDaysCount(symbol: string)
    ensures CountNonzero(FourDays(symbol), symbol) == 7
  {
    QuartersCount(symbol, 4);
    hide Quarters, CountNonzero;
    var a := Quarters(symbol, 4) + [Trade(symbol, 0, 10.5)];
    CountSnoc(Quarters(symbol, 4), Trade(symbol, 0, 10.5), symbol);
    CountSnoc(a, Trade(symbol, 1, 12.5), symbol);
    CountSnoc(a + [Trade(symbol, 1, 12.5)], Trade(symbol, 2, 10.0), symbol);
  }

  const FOUR_DAY_CONFIG := Config(2.0, 4, 5)

  function FourDayObs(symbol: string): Obs { Obs(3 * DAY, symbol, 10.0, FourDays(symbol)) }

  lemma FourDayHalves(symbol: string)
    ensures var c, o := FOUR_DAY_CONFIG, FourDayObs(symbol);
            HalfA(c, o) == [10.5, 12.5] && HalfB(c, o) == [10.0, 10.0]
  {
    hide FourDays;
    FourDaysTotal(symbol, 0);
    FourDaysTotal(symbol, 1);
    FourDaysTotal(symbol, 2);
    FourDaysTotal(symbol, 3);
    assert Window(FOUR_DAY_CONFIG, FourDayObs(symbol)) == [10.5, 12.5, 10.0, 10.0];
  }

  /** Days of 10.5 and 12.5 against a projection of 10 are one and a half deviations
      off: the observation is evaluated and counted as in band, outside the
      documented band. */
  lemma OneAndAHalfSigmaIsInBand(symbol: string)
    ensures var c, o := FOUR_DAY_CONFIG, FourDayObs(symbol);
            && Evaluated(o) && IsStd(HalfA(c, o), 1.0) && Mean(HalfA(c, o)) - o.projection == 1.5
            && Evaluate(c, FRESH, o).inBand == 1 && !InDocumentedBand(c, o)
  {
    var c, o := FOUR_DAY_CONFIG, FourDayObs(symbol);
    FourDayHalves(symbol);
    FourDaysCount(symbol);
    PairMean(10.5, 12.5);
    PairVariance(10.5, 12.5);
    VarianceByMoments([10.5, 12.5]);
    PairMean(10.0, 10.0);
    PairVariance(10.0, 10.0);
    hide MomentVariance, Mean, Variance, HalfA, HalfB, FourDays, CountNonzero;
    assert InBand(c, o);
  }

  // ----- The minimum-data gate counts trades --------------------------------------

  function DayOf(t: ClosedTrade): set<int> { if t.day.Some? then {t.day.value} else {} }

  /** The days with a nonzero close of the symbol. */
  function NonzeroDays(ts: seq<ClosedTrade>, symbol: string): set<int> {
    if ts == [] then {}
    else
      var t := ts[|ts| - 1];
      NonzeroDays(ts[..|ts| - 1], symbol) + if NonzeroClose(t, symbol) then DayOf(t) else {}
  }

  /** Every nonzero close of the symbol is dated, and no two fall on one day. */
  predicate OneADay(ts: seq<ClosedTrade>, symbol: string) {
    && (forall i :: 0 <= i < |ts| && NonzeroClose(ts[i], symbol) ==> ts[i].day.Some?)
    && forall i, j :: 0 <= i < j < |ts| && NonzeroClose(ts[i], symbol) && NonzeroClose(ts[j], symbol)
                      ==> ts[i].day != ts[j].day
  }

  predicate ClosedOn(t: ClosedTrade, symbol: string, d: int) { NonzeroClose(t, symbol) && t.day == Some(d) }

  lemma {:induction false} DaysAreListed(ts: seq<ClosedTrade>, symbol: string, d: int)
    ensures d in NonzeroDays(ts, symbol) <==> exists i :: 0 <= i < |ts| && ClosedOn(ts[i], symbol, d)
  {
    hide NonzeroClose;
    if ts != [] {
      var n := |ts| - 1;
      DaysAreListed(ts[..n], symbol, d);
      if d in NonzeroDays(ts[..n], symbol) {
        var i :| 0 <= i < n && ClosedOn(ts[..n][i], symbol, d);
        assert ClosedOn(ts[i], symbol, d);
      }
      if i :| 0 <= i < n && ClosedOn(ts[i], symbol, d) {
        assert ClosedOn(ts[..n][i], symbol, d);
      }
    }
  }

  lemma DaysSnoc(ts: seq<ClosedTrade>, t: ClosedTrade, symbol: string)
    ensures NonzeroDays(ts + [t], symbol)
         == if NonzeroClose(t, symbol) then NonzeroDays(ts, symbol) + DayOf(t) else NonzeroDays(ts, symbol)
  {
    assert (ts + [t])[..|ts|] == ts;
  }

  lemma OneADaySnoc(ts: seq<ClosedTrade>, t: ClosedTrade, symbol: string)
    ensures OneADay(ts + [t], symbol)
       <==> && OneADay(ts, symbol)
            && (NonzeroClose(t, symbol) ==> t.day.Some? && t.day.value !in NonzeroDays(ts, symbol))
  {
    hide NonzeroClose, NonzeroDays;
    var all, n := ts + [t], |ts|;
    assert forall i :: 0 <= i < n ==> all[i] == ts[i];
    assert all[n] == t;
    if NonzeroClose(t, symbol) && t.day.Some? {
      var d := t.day.value;
      DaysAreListed(ts, symbol, d);
      if d in NonzeroDays(ts, symbol) {
        var i :| 0 <= i < n && ClosedOn(ts[i], symbol, d);
        assert NonzeroClose(all[i], symbol) && NonzeroClose(all[n], symbol) && all[i].day == all[n].day;
      } else {
        forall i | 0 <= i < n && NonzeroClose(ts[i], symbol) ensures ts[i].day != t.day {
          assert !ClosedOn(ts[i], symbol, d);
        }
      }
    }
    if OneADay(all, symbol) {
      forall i | 0 <= i < n && NonzeroClose(ts[i], symbol)
        ensures ts[i].day.Some?
      {
        assert NonzeroClose(all[i], symbol);
      }
      forall i, j | 0 <= i < j < n && NonzeroClose(ts[i], symbol) && NonzeroClose(ts[j], symbol)
        ensures ts[i].day != ts[j].day
      {
        assert NonzeroClose(all[i], symbol) && NonzeroClose(all[j], symbol);
      }
    }
  }

  /** The gate's count is never below the number of days with a nonzero close, and
      equals it exactly when every such close is dated and no day has two. */
  lemma {:induction false} GateCountsDaysIff(ts: seq<ClosedTrade>, symbol: string)
    ensures CountNonzero(ts, symbol) >= |NonzeroDays(ts, symbol)|
    ensures CountNonzero(ts, symbol) == |NonzeroDays(ts, symbol)| <==> OneADay(ts, symbol)
  {
    hide NonzeroClose;
    if ts != [] {
      hide NonzeroDays, OneADay, CountNonzero;
      var before, t := ts[..|ts| - 1], ts[|ts| - 1];
      var days := NonzeroDays(before, symbol);
      GateCountsDaysIff(before, symbol);
      assert before + [t] == ts;
      CountSnoc(before, t, symbol);
      DaysSnoc(before, t, symbol);
      OneADaySnoc(before, t, symbol);
      if t.day.Some? && t.day.value in days {
        assert days + DayOf(t) == days;
      } else if t.day.None? {
        assert days + DayOf(t) == days;
      }
    }
  }

  /** Any number of closes on one day count as that many days: seven pass the gate. */
  lemma OneBusyDayPassesTheGate(symbol: string, n: nat)
    requires n >= MIN_NONZERO
    ensures Evaluated(Obs(3 * DAY, symbol, 10.0, Quarters(symbol, n)))
    ensures NonzeroDays(Quarters(symbol, n), symbol) <= {3}
  {
    QuartersCount(symbol, n);
    QuartersDay(symbol, n);
  }

  lemma {:induction false} QuartersDay(symbol: string, n: nat)
    ensures NonzeroDays(Quarters(symbol, n), symbol) <= {3}
  {
    if n > 0 {
      QuartersDay(symbol, n - 1);
      DaysSnoc(Quarters(symbol, n - 1), Trade(symbol, 3, 2.5), symbol);
    }
  }
}
