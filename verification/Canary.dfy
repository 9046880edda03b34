/** Pick, promotion, demotion and decay of the symbol canary (core/canary.py). */
module Canary {
  import opened DailyPnl
  import opened Numbers

  datatype Status = Init | Picked | Promoted | Demoted | Decayed | Disabled | NoTrusted

  datatype Decision =
    | DisabledByFlag | DisabledByOperator | NoTrustedPick | Pick | StickyPromoted | Switch
    | DecayDemote | Promote | Demote | ContinueNoData | Continue

  /** pinned: None when unset or null, "" for the operator's veto. */
  datatype Config = Config(
    enabled: bool, pinned: Option<string>, lotMultiplier: real, control: string,
    threshold: real, window: int, decayWindow: int, sigma: real)

  datatype Projection = Projection(symbol: string, trusted: bool, n: int, expected: real)

  /** One cycle's inputs. */
  datatype Obs = Obs(cfg: Config, now: int, rows: seq<Projection>, trades: seq<ClosedTrade>)

  datatype Row = Row(ts: int, decision: Decision, canaryPnl: real, controlPnl: real, expected: real)

  datatype State = State(
    status: Status, pinned: Option<string>, symbol: Option<string>, control: string, lotMultiplier: real,
    pickedAt: Option<int>, promotedAt: Option<int>, demotedAt: Option<int>, history: seq<Row>, lastAudit: Option<int>)

  const FRESH := State(Init, None, None, "XAUUSDm", 1.5, None, None, None, [], None)

  const MIN_TRUSTED := 30
  const HISTORY := 90
  const NOTHING := 0.000000001

  // ----- The pick -----------------------------------------------------------------

  predicate Trusted(r: Projection) { r.trusted && r.n >= MIN_TRUSTED }

  /** The first trusted row for the pinned symbol. */
  function PinnedRow(rows: seq<Projection>, symbol: string): Option<Projection> {
    if rows == [] then None
    else
      var last := rows[|rows| - 1];
      var before := PinnedRow(rows[..|rows| - 1], symbol);
      if before.None? && Trusted(last) && last.symbol == symbol then Some(last) else before
  }

  /** The trusted row with the highest projection, the first of equals. */
  function BestRow(rows: seq<Projection>): Option<Projection> {
    if rows == [] then None
    else
      var last := rows[|rows| - 1];
      var best := BestRow(rows[..|rows| - 1]);
      if Trusted(last) && (best.None? || last.expected > best.value.expected) then Some(last) else best
  }

  function PickCanary(c: Config, rows: seq<Projection>): Option<Projection> {
    if c.pinned.None? then BestRow(rows)
    else if c.pinned.value == "" then None
    else PinnedRow(rows, c.pinned.value)
  }

  // ----- Realised windows ------------------------------------------------------------

  predicate HasData(w: seq<real>) { exists i :: 0 <= i < |w| && Abs(w[i]) > NOTHING }

  // ----- Checks on the current canary ---------------------------------------------------

  /** A varying half whose mean is more than sigma deviations off the projection. */
  predicate HalfDiverges(half: seq<real>, projection: real, sigma: real) {
    half != [] && projection != 0.0 && Variance(half) > NOTHING * NOTHING
    && ExceedsStds(Mean(half) - projection, sigma, Variance(half))
  }

  predicate AlphaDecay(w: seq<real>, projection: real, sigma: real) {
    var half := |w| / 2;
    |w| >= 14 && projection != 0.0
    && HalfDiverges(w[..half], projection, sigma) && HalfDiverges(w[half..], projection, sigma)
  }

  predicate DecaySeen(o: Obs, symbol: string, expected: real) {
    AlphaDecay(Series(o.trades, symbol, Day(o.now), o.cfg.decayWindow), expected, o.cfg.sigma)
  }

  predicate Eligible(s: State, window: int) { s.status in {Picked, Promoted} && |s.history| >= window }

  /** The canary's window beats the control's by the configured share of its
      projection over the window. */
  predicate Beats(canary: seq<real>, control: seq<real>, c: Config, expected: real) {
    Sum(canary) - Sum(control) > expected * c.threshold * c.window as real
  }

  predicate Outperforms(o: Obs, symbol: string, expected: real) {
    Beats(Series(o.trades, symbol, Day(o.now), o.cfg.window), Series(o.trades, o.cfg.control, Day(o.now), o.cfg.window),
          o.cfg, expected)
  }

  predicate Grounded(o: Obs, symbol: string, history: seq<Row>) {
    || HasData(Series(o.trades, symbol, Day(o.now), o.cfg.window))
    || HasData(Series(o.trades, o.cfg.control, Day(o.now), o.cfg.window))
    || exists i :: 0 <= i < |history| && (Abs(history[i].canaryPnl) > NOTHING || Abs(history[i].controlPnl) > NOTHING)
  }

  function Verdict(s: State, o: Obs, symbol: string, expected: real): Decision {
    if DecaySeen(o, symbol, expected) then DecayDemote
    else if !Eligible(s, o.cfg.window) then Continue
    else if Outperforms(o, symbol, expected) then Promote
    else if Grounded(o, symbol, s.history) then Demote
    else ContinueNoData
  }

  /** Same-day upsert, then keep the newest 90 rows. */
  function Upsert(h: seq<Row>, r: Row): seq<Row> {
    var h' := if h != [] && Day(h[|h| - 1].ts) == Day(r.ts) then h[..|h| - 1] + [r] else h + [r];
    if |h'| > HISTORY then h'[|h'| - HISTORY..] else h'
  }

  function LastOrZero(w: seq<real>): real { if w == [] then 0.0 else w[|w| - 1] }

  function RowOf(o: Obs, symbol: string, expected: real, d: Decision): Row {
    Row(o.now, d, LastOrZero(Series(o.trades, symbol, Day(o.now), o.cfg.window)),
        LastOrZero(Series(o.trades, o.cfg.control, Day(o.now), o.cfg.window)), expected)
  }

  function Judged(s: State, d: Decision, now: int): State {
    match d
    case DecayDemote => s.(status := Decayed, demotedAt := Some(now))
    case Promote => s.(status := Promoted, promotedAt := Some(now))
    case Demote => s.(status := Demoted, demotedAt := Some(now))
    case _ => s
  }

  function Check(s: State, o: Obs, symbol: string, expected: real): (State, Decision) {
    var d := Verdict(s, o, symbol, expected);
    (Judged(s, d, o.now).(control := o.cfg.control, lotMultiplier := o.cfg.lotMultiplier,
                          history := Upsert(s.history, RowOf(o, symbol, expected, d)), lastAudit := Some(o.now)),
     d)
  }

  /** The checks on a state whose control and multiplier are already refreshed. */
  lemma CheckByParts(s: State, o: Obs, symbol: string, expected: real)
    ensures var t := s.(control := o.cfg.control, lotMultiplier := o.cfg.lotMultiplier);
            var d := Verdict(t, o, symbol, expected);
            Check(s, o, symbol, expected)
            == (Judged(t, d, o.now).(history := Upsert(t.history, RowOf(o, symbol, expected, d)),
                                     lastAudit := Some(o.now)), d)
  {
    hide DecaySeen, Outperforms, Grounded, Upsert, RowOf;
  }

  // ----- Stickiness --------------------------------------------------------------------

  function DaysSince(ts: Option<int>, now: int): int { if ts.None? then 0 else (now - ts.value) / DAY }

  predicate LargeUplift(s: State, expected: real) {
    s.history != [] && s.history[|s.history| - 1].expected > 0.0
    && expected >= s.history[|s.history| - 1].expected * 1.25
  }

  predicate Sticky(s: State, o: Obs, expected: real) {
    s.status == Promoted && DaysSince(s.promotedAt, o.now) >= o.cfg.window && !LargeUplift(s, expected)
  }

  // ----- One cycle on values --------------------------------------------------------------

  function Step(s: State, o: Obs): (State, Decision) {
    var c, now := o.cfg, Some(o.now);
    var pick := PickCanary(c, o.rows);
    if !c.enabled then (s.(status := Disabled, lastAudit := now), DisabledByFlag)
    else if c.pinned == Some("") then (s.(status := Disabled, pinned := Some(""), lastAudit := now), DisabledByOperator)
    else if pick.None? then
      (s.(status := if s.symbol.None? then NoTrusted else s.status, lastAudit := now), NoTrustedPick)
    else
      var picked := s.(status := Picked, symbol := Some(pick.value.symbol), pickedAt := now,
                      promotedAt := None, demotedAt := None, history := [], lastAudit := now);
      if s.status == Init || s.symbol.None? then (picked.(control := c.control, lotMultiplier := c.lotMultiplier), Pick)
      else if s.symbol.value == pick.value.symbol then Check(s, o, pick.value.symbol, pick.value.expected)
      else if Sticky(s, o, pick.value.expected) then (s.(lastAudit := now), StickyPromoted)
      else (picked, Switch)
  }

  /** The volume multiplier used at entry. */
  function LotMultiplierFor(s: State, symbol: string, vetoed: bool): real {
    if vetoed || s.status in {Init, Disabled, NoTrusted, Decayed, Demoted} || s.symbol != Some(symbol)
       || s.lotMultiplier <= 1.0
    then 1.0
    else s.lotMultiplier
  }

  // ----- The state object ---------------------------------------------------------------------

  class CanaryState {
    var status: Status
    var pinned: Option<string>
    var symbol: Option<string>
    var control: string
    var lotMultiplier: real
    var pickedAt: Option<int>
    var promotedAt: Option<int>
    var demotedAt: Option<int>
    var history: seq<Row>
    var lastAudit: Option<int>

    function View(): State
      reads this
    {
      State(status, pinned, symbol, control, lotMultiplier, pickedAt, promotedAt, demotedAt, history, lastAudit)
    }

    constructor (s: State)
      ensures View() == s
    {
      status, pinned, symbol, control, lotMultiplier := s.status, s.pinned, s.symbol, s.control, s.lotMultiplier;
      pickedAt, promotedAt, demotedAt, history, lastAudit :=
        s.pickedAt, s.promotedAt, s.demotedAt, s.history, s.lastAudit;
    }

    method UpsertTodayHistory(r: Row)
      modifies this`history
      ensures history == Upsert(old(history), r)
    {
      if history != [] && Day(history[|history| - 1].ts) == Day(r.ts) {
        history := history[|history| - 1 := r];
        assert history == old(history)[..|history| - 1] + [r];
      } else {
        history := history + [r];
      }
      if |history| > HISTORY { history := history[|history| - HISTORY..]; }
    }

    /** Decides on the existing candidate and moves its status. */
    method Judge(o: Obs, pick: Projection, canary: seq<real>, other: seq<real>) returns (d: Decision)
      requires canary == Series(o.trades, pick.symbol, Day(o.now), o.cfg.window)
      requires other == Series(o.trades, o.cfg.control, Day(o.now), o.cfg.window)
      modifies this`status, this`promotedAt, this`demotedAt
      ensures d == Verdict(old(View()), o, pick.symbol, pick.expected)
      ensures View() == Judged(old(View()), d, o.now)
    {
      hide Series, Grounded, AlphaDecay, Beats;
      var eligible := Eligible(View(), o.cfg.window);
      var passed := eligible && Beats(canary, other, o.cfg, pick.expected);
      var decayWindow := RealizedDailySeries(o.trades, pick.symbol, Day(o.now), o.cfg.decayWindow);
      var decayed := AlphaDecay(decayWindow, pick.expected, o.cfg.sigma);
      if decayed {
        status, demotedAt, d := Decayed, Some(o.now), DecayDemote;
      } else if passed {
        status, promotedAt, d := Promoted, Some(o.now), Promote;
      } else if eligible {
        if Grounded(o, pick.symbol, history) {
          status, demotedAt, d := Demoted, Some(o.now), Demote;
        } else {
          d := ContinueNoData;
        }
      } else {
        d := Continue;
      }
    }

    /** The promotion, demotion and decay checks on the existing candidate. */
    method RunChecks(o: Obs, pick: Projection) returns (d: Decision)
      requires symbol == Some(pick.symbol)
      modifies this
      ensures (View(), d) == Check(old(View()), o, pick.symbol, pick.expected)
    {
      hide Series, Check, Verdict, Judged, Upsert, LastOrZero;
      CheckByParts(View(), o, pick.symbol, pick.expected);
      control, lotMultiplier := o.cfg.control, o.cfg.lotMultiplier;
      var canary := RealizedDailySeries(o.trades, pick.symbol, Day(o.now), o.cfg.window);
      var other := RealizedDailySeries(o.trades, control, Day(o.now), o.cfg.window);
      d := Judge(o, pick, canary, other);
      UpsertTodayHistory(Row(o.now, d, LastOrZero(canary), LastOrZero(other), pick.expected));
      lastAudit := Some(o.now);
    }

    method Tick(o: Obs) returns (d: Decision)
      modifies this
      ensures (View(), d) == Step(old(View()), o)
    {
      hide Check, PickCanary;
      var now := Some(o.now);
      if !o.cfg.enabled {
        status, lastAudit := Disabled, now;
        return DisabledByFlag;
      }
      var pick := PickCanary(o.cfg, o.rows);
      if o.cfg.pinned == Some("") {
        status, pinned, lastAudit := Disabled, Some(""), now;
        return DisabledByOperator;
      }
      if pick.None? {
        status := if symbol.None? then NoTrusted else status;
        lastAudit := now;
        return NoTrustedPick;
      }
      var p := pick.value;
      if status == Init || symbol.None? {
        status, symbol, control, lotMultiplier := Picked, Some(p.symbol), o.cfg.control, o.cfg.lotMultiplier;
        pickedAt, promotedAt, demotedAt, history, lastAudit := now, None, None, [], now;
        return Pick;
      }
      if p.symbol != symbol.value {
        if Sticky(View(), o, p.expected) {
          lastAudit := now;
          return StickyPromoted;
        }
        symbol, pickedAt, status := Some(p.symbol), now, Picked;
        promotedAt, demotedAt, history, lastAudit := None, None, [], now;
        return Switch;
      }
      d := RunChecks(o, p);
    }
  }
}
