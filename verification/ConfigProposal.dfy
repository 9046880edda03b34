/** Bounded configuration patches: the safety policy, the proposals mined from
    trade reviews, and writing a patch into a nested configuration
    (core/config_proposal.py). */
module ConfigProposal {
  import opened Numbers

  /** A configuration value.  `number` is what float() reads from the text. */
  datatype Json =
    | Null | Bool(b: bool) | Num(x: real) | Text(s: string, number: Option<real>)
    | List(items: seq<Json>) | Obj(fields: map<string, Json>)

  type Path = seq<string>

  /** Absent fields read as Null. */
  datatype Op = Op(path: Path, prev: Json, value: Json)

  const MAX_SL_ATR := 2.0

  const FORBIDDEN: set<Path> := {
    ["execution", "default_lot"], ["execution", "max_lot"], ["execution", "live_trading_enabled"],
    ["execution", "mt5_trading_enabled"], ["execution", "allow_live_account"], ["execution", "starting_cash"],
    ["execution", "magic_number"], ["mt5", "account_mode"], ["mt5", "login"], ["mt5", "password"],
    ["mt5", "server"], ["mt5", "path"], ["risk", "max_drawdown_pct"], ["risk", "kill_switch"],
    ["risk", "max_consecutive_losses"], ["practice", "micro", "max_lot"], ["practice", "micro", "default_lot"]
  }

  const GUARD_DISABLE: set<Path> := {
    ["fast_mode", "emergency_exit", "enabled"], ["trading", "break_even", "enabled"], ["filters", "avoid_news"]
  }

  const LOT_PATHS: set<Path> := {
    ["execution", "default_lot"], ["execution", "max_lot"], ["practice", "micro", "max_lot"]
  }

  const TP1_RR: Path := ["trading", "sl_tp", "tp1_rr"]
  const SL_ATR: Path := ["trading", "sl_tp", "sl_atr_mult"]
  const MIN_CONFIDENCE: Path := ["signals", "min_confidence"]
  const SPREAD_MULT: Path := ["filters", "spread_mult"]
  const HOURLY_CAP: Path := ["fast_mode", "max_trades_per_symbol_per_hour"]
  const MIN_R_WIN: Path := ["trading", "exits", "min_r_multiple_win"]
  const MIN_TRADES_FOR_CAP_RELAX := 30

  // ----- Reading and writing nested configurations -----------------------------------

  function Get(c: Json, path: Path): Option<Json> {
    if path == [] then Some(c)
    else if c.Obj? && path[0] in c.fields then Get(c.fields[path[0]], path[1..])
    else None
  }

  /** Missing parents are created; a parent that is not an object swallows the write. */
  function SetPath(c: Json, path: Path, v: Json): Json
    decreases |path|
  {
    if path == [] || !c.Obj? then c
    else if |path| == 1 then Obj(c.fields[path[0] := v])
    else
      var child := if path[0] in c.fields then c.fields[path[0]] else Obj(map[]);
      Obj(c.fields[path[0] := SetPath(child, path[1..], v)])
  }

  function ApplyOps(c: Json, ops: seq<Op>): Json {
    if ops == [] then c
    else
      var op := ops[|ops| - 1];
      SetPath(ApplyOps(c, ops[..|ops| - 1]), op.path, op.value)
  }

  /** A configuration object: what a caller holds a reference to and writes in place. */
  class ConfigObject {
    var tree: Json

    constructor (tree: Json)
      ensures this.tree == tree
    {
      this.tree := tree;
    }

    method DeepCopy() returns (copy: ConfigObject)
      ensures fresh(copy) && copy.tree == tree
    {
      copy := new ConfigObject(tree);
    }

    method Write(path: Path, v: Json)
      modifies this
      ensures tree == SetPath(old(tree), path, v)
    {
      tree := SetPath(tree, path, v);
    }
  }

  /** Writes the ops in place into a copy; the configuration given is not written. */
  method ApplyPatchToConfig(config: ConfigObject, ops: seq<Op>) returns (out: ConfigObject)
    ensures fresh(out) && out.tree == ApplyOps(config.tree, ops)
  {
    hide SetPath;
    out := config.DeepCopy();
    for i := 0 to |ops|
      invariant fresh(out) && out.tree == ApplyOps(config.tree, ops[..i])
    {
      assert ops[..i + 1][..i] == ops[..i];
      out.Write(ops[i].path, ops[i].value);
    }
    assert ops[..|ops|] == ops;
  }

  // ----- float() ------------------------------------------------------------------------

  predicate Falsy(v: Json) {
    match v
    case Null => true
    case Bool(b) => !b
    case Num(x) => x == 0.0
    case Text(s, _) => s == ""
    case List(items) => items == []
    case Obj(fields) => fields == map[]
  }

  /** float(v); None where it raises. */
  function FloatOf(v: Json): Option<real> {
    match v
    case Bool(b) => Some(if b then 1.0 else 0.0)
    case Num(x) => Some(x)
    case Text(_, number) => number
    case _ => None
  }

  /** float(v or 0) */
  function OrZero(v: Json): Option<real> { if Falsy(v) then Some(0.0) else FloatOf(v) }

  // ----- The safety policy ----------------------------------------------------------------

  datatype Reason = ForbiddenPath | GuardDisabled | SpreadLoosened | CapRelaxed | LotIncreased

  datatype Verdict = Safe | Dangerous(why: Reason) | Raises

  /** Dangerous when the new value exceeds the previous one; Raises when either is
      not a number. */
  function Raised(op: Op, why: Reason): Verdict {
    var v, p := OrZero(op.value), OrZero(op.prev);
    if v.None? || p.None? then Raises else if v.value > p.value then Dangerous(why) else Safe
  }

  function JudgeOp(op: Op, reviewed: int): Verdict {
    if op.path in FORBIDDEN then Dangerous(ForbiddenPath)
    else if op.path in GUARD_DISABLE && op.value == Bool(false) then Dangerous(GuardDisabled)
    else if op.path == SPREAD_MULT then Raised(op, SpreadLoosened)
    else if op.path == HOURLY_CAP then
      var r := Raised(op, CapRelaxed);
      if r.Dangerous? && reviewed >= MIN_TRADES_FOR_CAP_RELAX then Safe else r
    else if op.path in LOT_PATHS then Raised(op, LotIncreased)
    else Safe
  }

  /** The first op that is not safe decides. */
  function IsDangerous(ops: seq<Op>, reviewed: int): Verdict {
    if ops == [] then Safe
    else
      var first := JudgeOp(ops[0], reviewed);
      if first != Safe then first else IsDangerous(ops[1..], reviewed)
  }

  lemma {:induction false} SafeMeansEveryOp(ops: seq<Op>, reviewed: int)
    ensures IsDangerous(ops, reviewed) == Safe <==> forall i :: 0 <= i < |ops| ==> JudgeOp(ops[i], reviewed) == Safe
  {
    hide JudgeOp;
    if ops != [] {
      SafeMeansEveryOp(ops[1..], reviewed);
      assert forall i :: 1 <= i < |ops| ==> ops[i] == ops[1..][i - 1];
    }
  }

  /** The stated policy for the payoff ratchet is that a lower value is always
      rejected.  It is not: every op on that path is judged safe. */
  lemma RatchetMayGoDown(prev: Json, value: Json, reviewed: int)
    ensures IsDangerous([Op(MIN_R_WIN, prev, value)], reviewed) == Safe
  {
    var op := Op(MIN_R_WIN, prev, value);
    assert MIN_R_WIN[0] == "trading" && MIN_R_WIN[1] == "exits" && |MIN_R_WIN| == 3;
    assert JudgeOp(op, reviewed) == Safe;
    assert [op][1..] == [];
  }

  // ----- Proposals mined from reviews --------------------------------------------------------

  /** (min_delta, max_delta); an unlisted path is bounded to 0. */
  function Bounds(path: Path): (real, real) {
    if path == TP1_RR then (-0.2, 0.2)
    else if path == ["trading", "sl_tp", "tp2_rr"] then (-0.3, 0.3)
    else if path == SL_ATR then (-0.2, 0.2)
    else if path == MIN_CONFIDENCE then (-10.0, 10.0)
    else if path == SPREAD_MULT then (-0.5, 0.2)
    else if path == HOURLY_CAP then (-4.0, 2.0)
    else if path == ["trading", "strategy_entries", "entry_buffer_atr"] then (-0.05, 0.05)
    else if path == ["trading", "trailing", "activation_atr_mult"] then (-0.2, 0.2)
    else if path == ["trading", "break_even", "trigger_atr_mult"] then (-0.2, 0.2)
    else if path == MIN_R_WIN then (0.0, 0.1)
    else (0.0, 0.0)
  }

  function Round4(x: real): real { Round(x, 10_000.0) }

  function ClampDelta(path: Path, delta: real): real {
    Round4(Max(Bounds(path).0, Min(Bounds(path).1, delta)))
  }

  function MakeOp(path: Path, prev: real, delta: real): Op { Op(path, Num(prev), Num(Round4(prev + delta))) }

  /** The number at a path, 0 where there is none. */
  function NumberAt(c: Json, path: Path): real {
    var v := Get(c, path);
    if v.Some? && FloatOf(v.value).Some? then FloatOf(v.value).value else 0.0
  }

  function NumberOr(c: Json, path: Path, default: real): real {
    if NumberAt(c, path) == 0.0 then default else NumberAt(c, path)
  }

  datatype Mistake = TpTooEarly | SlTooTight | WrongTimeframe | Overtrading | SpreadSpike

  datatype Review = Review(
    symbol: string, mistakes: set<Mistake>, postExit: real, mfeR: Option<real>, rMultiple: Option<real>)

  datatype Kind = WidenTp | WidenSl | SlCapped | RaiseConfidence | LowerHourlyCap | TightenSpread

  datatype Proposal = Proposal(symbol: string, kind: Kind, ops: seq<Op>, reviewed: nat)

  /** build_proposal's rejection flag. */
  predicate Rejected(p: Proposal) { IsDangerous(p.ops, p.reviewed).Dangerous? }

  function Missed(r: Review): real {
    Max(r.postExit, if r.mfeR.Some? && r.rMultiple.Some? then r.mfeR.value - r.rMultiple.value else 0.0)
  }

  function With(rows: seq<Review>, m: Mistake): seq<Review> {
    if rows == [] then []
    else
      var n := |rows| - 1;
      With(rows[..n], m) + if m in rows[n].mistakes then [rows[n]] else []
  }

  function TotalMissed(rows: seq<Review>): real {
    if rows == [] then 0.0 else TotalMissed(rows[..|rows| - 1]) + Missed(rows[|rows| - 1])
  }

  /** None where the average of no reviews is taken (a minimum sample below 1): the
      Python code divides by zero. */
  function TpProposals(symbol: string, rows: seq<Review>, c: Json, minSample: int): Option<seq<Proposal>> {
    var early := With(rows, TpTooEarly);
    if |early| < minSample then Some([])
    else if early == [] then None
    else
      var avg := TotalMissed(early) / |early| as real;
      if avg < 0.3 then Some([])
      else
        var delta := ClampDelta(TP1_RR, Min(0.15, 0.05 * RoundInt(avg / 0.3) as real));
        Some([Proposal(symbol, WidenTp, [MakeOp(TP1_RR, NumberOr(c, TP1_RR, 1.5), delta)], |rows|)])
  }

  predicate SlAtCap(c: Json) { NumberOr(c, SL_ATR, 0.5) + ClampDelta(SL_ATR, 0.1) > MAX_SL_ATR }

  function Step(symbol: string, rows: seq<Review>, c: Json, minSample: int,
                mistake: Mistake, kind: Kind, path: Path, default: real, delta: real): seq<Proposal>
  {
    if |With(rows, mistake)| < minSample then []
    else [Proposal(symbol, kind, [MakeOp(path, NumberOr(c, path, default), ClampDelta(path, delta))], |rows|)]
  }

  /** The patterns after the take-profit one.  A stop already at its cap also skips
      the symbol's remaining patterns. */
  function LaterProposals(symbol: string, rows: seq<Review>, c: Json, minSample: int): seq<Proposal> {
    if |With(rows, SlTooTight)| >= minSample && SlAtCap(c) then [Proposal(symbol, SlCapped, [], |rows|)]
    else
      Step(symbol, rows, c, minSample, SlTooTight, WidenSl, SL_ATR, 0.5, 0.1)
      + Step(symbol, rows, c, minSample, WrongTimeframe, RaiseConfidence, MIN_CONFIDENCE, 50.0, 5.0)
      + Step(symbol, rows, c, minSample, Overtrading, LowerHourlyCap, HOURLY_CAP, 4.0, -1.0)
      + Step(symbol, rows, c, minSample, SpreadSpike, TightenSpread, SPREAD_MULT, 3.5, -0.2)
  }

  function ProposalsFor(symbol: string, rows: seq<Review>, c: Json, minSample: int): Option<seq<Proposal>> {
    var tp := TpProposals(symbol, rows, c, minSample);
    if tp.None? then None else Some(tp.value + LaterProposals(symbol, rows, c, minSample))
  }

  /** The symbols in order of first review, "" skipped. */
  function SymbolsOf(rs: seq<Review>): seq<string> {
    if rs == [] then []
    else
      var n := |rs| - 1;
      var before, s := SymbolsOf(rs[..n]), rs[n].symbol;
      if s == "" || s in before then before else before + [s]
  }

  function RowsOf(rs: seq<Review>, symbol: string): seq<Review> {
    if rs == [] then []
    else
      var n := |rs| - 1;
      RowsOf(rs[..n], symbol) + if rs[n].symbol == symbol then [rs[n]] else []
  }

  function ProposalsOver(symbols: seq<string>, rs: seq<Review>, c: Json, minSample: int): Option<seq<Proposal>> {
    if symbols == [] then Some([])
    else
      var n := |symbols| - 1;
      var before := ProposalsOver(symbols[..n], rs, c, minSample);
      var next := ProposalsFor(symbols[n], RowsOf(rs, symbols[n]), c, minSample);
      if before.None? || next.None? then None else Some(before.value + next.value)
  }

  /** The by-symbol dictionary and its keys in order. */
  method GroupBySymbol(rs: seq<Review>) returns (symbols: seq<string>, bySymbol: map<string, seq<Review>>)
    ensures symbols == SymbolsOf(rs)
    ensures forall s :: s in symbols ==> s in bySymbol && bySymbol[s] == RowsOf(rs, s)
  {
    symbols, bySymbol := [], map[];
    for i := 0 to |rs|
      invariant symbols == SymbolsOf(rs[..i]) && forall s :: s in bySymbol <==> s in symbols
      invariant forall s :: s in bySymbol ==> s != "" && bySymbol[s] == RowsOf(rs[..i], s)
      invariant forall s :: s !in bySymbol && s != "" ==> RowsOf(rs[..i], s) == []
    {
      assert rs[..i + 1][..i] == rs[..i];
      var r := rs[i];
      if r.symbol != "" {
        if r.symbol !in bySymbol { symbols, bySymbol := symbols + [r.symbol], bySymbol[r.symbol := []]; }
        bySymbol := bySymbol[r.symbol := bySymbol[r.symbol] + [r]];
      }
    }
    assert rs[..|rs|] == rs;
  }

  /** Appends each symbol's proposals; None where the Python code raises. */
  method ProposeFromReviews(rs: seq<Review>, c: Json, minSample: int) returns (r: Option<seq<Proposal>>)
    ensures r == ProposalsOver(SymbolsOf(rs), rs, c, minSample)
  {
    hide ProposalsFor, SymbolsOf, RowsOf;
    var symbols, bySymbol := GroupBySymbol(rs);
    var ps: seq<Proposal> := [];
    for i := 0 to |symbols|
      invariant Some(ps) == ProposalsOver(symbols[..i], rs, c, minSample)
    {
      assert symbols[..i + 1][..i] == symbols[..i];
      var next := ProposalsFor(symbols[i], bySymbol[symbols[i]], c, minSample);
      if next.None? {
        RaisingLasts(symbols, i + 1, rs, c, minSample);
        return None;
      }
      ps := ps + next.value;
    }
    assert symbols[..|symbols|] == symbols;
    return Some(ps);
  }

  lemma {:induction false} RaisingLasts(symbols: seq<string>, k: nat, rs: seq<Review>, c: Json, minSample: int)
    requires k <= |symbols| && ProposalsOver(symbols[..k], rs, c, minSample).None?
    ensures ProposalsOver(symbols, rs, c, minSample).None?
  {
    hide ProposalsFor;
    if k == |symbols| {
      assert symbols[..k] == symbols;
    } else {
      assert symbols[..|symbols| - 1][..k] == symbols[..k];
      RaisingLasts(symbols[..|symbols| - 1], k, rs, c, minSample);
    }
  }

  // ----- No proposal is ever dangerous ----------------------------------------------------------

  /** Neither rejected nor raising when judged, and a widened stop stays within its cap. */
  predicate Harmless(p: Proposal) {
    && !Rejected(p) && !IsDangerous(p.ops, p.reviewed).Raises?
    && (p.kind == WidenSl ==> |p.ops| == 1 && p.ops[0].path == SL_ATR
                              && p.ops[0].value.Num? && p.ops[0].value.x <= MAX_SL_ATR)
  }

  predicate AllHarmless(ps: seq<Proposal>) { forall i :: 0 <= i < |ps| ==> Harmless(ps[i]) }

  lemma OneOp(op: Op, reviewed: int)
    ensures IsDangerous([op], reviewed) == JudgeOp(op, reviewed)
  {
    hide JudgeOp;
    assert [op][1..] == [] && IsDangerous([], reviewed) == Safe;
  }

  lemma PathsApart()
    ensures TP1_RR !in FORBIDDEN && SL_ATR !in FORBIDDEN && MIN_CONFIDENCE !in FORBIDDEN
    ensures SPREAD_MULT !in FORBIDDEN && HOURLY_CAP !in FORBIDDEN
    ensures TP1_RR !in LOT_PATHS && SL_ATR !in LOT_PATHS && MIN_CONFIDENCE !in LOT_PATHS
    ensures TP1_RR != SPREAD_MULT && TP1_RR != HOURLY_CAP && SL_ATR != SPREAD_MULT && SL_ATR != HOURLY_CAP
    ensures MIN_CONFIDENCE != SPREAD_MULT && MIN_CONFIDENCE != HOURLY_CAP && SPREAD_MULT != HOURLY_CAP
  {
    assert TP1_RR[2] == "tp1_rr" && SL_ATR[2] == "sl_atr_mult";
    assert MIN_CONFIDENCE[0] == "signals" && SPREAD_MULT[0] == "filters" && HOURLY_CAP[0] == "fast_mode";
    assert TP1_RR[0] == "trading" && SL_ATR[0] == "trading" && |TP1_RR| == 3 && |SL_ATR| == 3;
  }

  lemma FallingOpIsNotRaised(path: Path, prev: real, delta: real, why: Reason)
    requires delta <= -0.0001
    ensures Raised(MakeOp(path, prev, delta), why) == Safe
  {
    RoundError(prev + delta, 10_000.0);
  }

  lemma ClampedDeltas()
    ensures ClampDelta(SL_ATR, 0.1) == 0.1 && ClampDelta(MIN_CONFIDENCE, 5.0) == 5.0
    ensures ClampDelta(HOURLY_CAP, -1.0) == -1.0 && ClampDelta(SPREAD_MULT, -0.2) == -0.2
  {
    hide Round;
    PathsApart();
    assert SL_ATR[2] == "sl_atr_mult" && MIN_CONFIDENCE[0] == "signals" && HOURLY_CAP[0] == "fast_mode";
    assert SPREAD_MULT[0] == "filters";
    RoundFixesGrid(0.1, 10_000.0);
    RoundFixesGrid(5.0, 10_000.0);
    RoundFixesGrid(-1.0, 10_000.0);
    RoundFixesGrid(-0.2, 10_000.0);
  }

  lemma StepIsHarmless(symbol: string, rows: seq<Review>, c: Json, minSample: int,
                       mistake: Mistake, kind: Kind, path: Path, default: real, delta: real)
    requires kind != WidenSl
    requires path == MIN_CONFIDENCE || (path in {HOURLY_CAP, SPREAD_MULT} && ClampDelta(path, delta) <= -0.0001)
    ensures AllHarmless(Step(symbol, rows, c, minSample, mistake, kind, path, default, delta))
  {
    hide ClampDelta, Round4, Raised;
    PathsApart();
    var op := MakeOp(path, NumberOr(c, path, default), ClampDelta(path, delta));
    if path != MIN_CONFIDENCE {
      FallingOpIsNotRaised(path, NumberOr(c, path, default), ClampDelta(path, delta), SpreadLoosened);
      FallingOpIsNotRaised(path, NumberOr(c, path, default), ClampDelta(path, delta), CapRelaxed);
    }
    assert JudgeOp(op, |rows|) == Safe;
    OneOp(op, |rows|);
  }

  lemma WidenedStopIsHarmless(symbol: string, rows: seq<Review>, c: Json, minSample: int)
    requires !SlAtCap(c) || |With(rows, SlTooTight)| < minSample
    ensures AllHarmless(Step(symbol, rows, c, minSample, SlTooTight, WidenSl, SL_ATR, 0.5, 0.1))
  {
    hide ClampDelta, Round, With;
    PathsApart();
    var prev, delta := NumberOr(c, SL_ATR, 0.5), ClampDelta(SL_ATR, 0.1);
    var op := MakeOp(SL_ATR, prev, delta);
    if !SlAtCap(c) {
      RoundMonotone(prev + delta, MAX_SL_ATR, 10_000.0);
      RoundFixesGrid(MAX_SL_ATR, 10_000.0);
    }
    assert JudgeOp(op, |rows|) == Safe;
    OneOp(op, |rows|);
  }

  lemma TpIsHarmless(symbol: string, rows: seq<Review>, c: Json, minSample: int)
    ensures var ps := TpProposals(symbol, rows, c, minSample); ps.Some? ==> AllHarmless(ps.value)
  {
    hide ClampDelta, MakeOp, TotalMissed, RoundInt;
    PathsApart();
    var ps := TpProposals(symbol, rows, c, minSample);
    if ps.Some? && ps.value != [] {
      var op := ps.value[0].ops[0];
      assert op.path == TP1_RR by { MadePath(TP1_RR); }
      assert JudgeOp(op, |rows|) == Safe;
      OneOp(op, |rows|);
    }
  }

  lemma MadePath(path: Path)
    ensures forall prev, delta :: MakeOp(path, prev, delta).path == path
  {}

  lemma LaterIsHarmless(symbol: string, rows: seq<Review>, c: Json, minSample: int)
    ensures AllHarmless(LaterProposals(symbol, rows, c, minSample))
  {
    hide SlAtCap, Step, With;
    ClampedDeltas();
    assert IsDangerous([], |rows|) == Safe;
    if !SlAtCap(c) || |With(rows, SlTooTight)| < minSample {
      WidenedStopIsHarmless(symbol, rows, c, minSample);
    }
    StepIsHarmless(symbol, rows, c, minSample, WrongTimeframe, RaiseConfidence, MIN_CONFIDENCE, 50.0, 5.0);
    StepIsHarmless(symbol, rows, c, minSample, Overtrading, LowerHourlyCap, HOURLY_CAP, 4.0, -1.0);
    StepIsHarmless(symbol, rows, c, minSample, SpreadSpike, TightenSpread, SPREAD_MULT, 3.5, -0.2);
  }

  /** No proposal mined from any reviews and configuration is ever rejected as
      dangerous, and none widens the stop beyond its cap. */
  lemma {:induction false} ProposalsAreHarmless(symbols: seq<string>, rs: seq<Review>, c: Json, minSample: int)
    ensures var ps := ProposalsOver(symbols, rs, c, minSample); ps.Some? ==> AllHarmless(ps.value)
  {
    hide TpProposals, LaterProposals, Harmless;
    if symbols != [] {
      var n := |symbols| - 1;
      ProposalsAreHarmless(symbols[..n], rs, c, minSample);
      TpIsHarmless(symbols[n], RowsOf(rs, symbols[n]), c, minSample);
      LaterIsHarmless(symbols[n], RowsOf(rs, symbols[n]), c, minSample);
    }
  }

  /** With a minimum sample of at least 1 mining never raises. */
  lemma {:induction false} MiningReturns(symbols: seq<string>, rs: seq<Review>, c: Json, minSample: int)
    requires minSample >= 1
    ensures ProposalsOver(symbols, rs, c, minSample).Some?
  {
    hide LaterProposals, MakeOp;
    if symbols != [] { MiningReturns(symbols[..|symbols| - 1], rs, c, minSample); }
  }

  // ----- The lot-increase test ---------------------------------------------------------------

  /** No patch is ever rejected for increasing a lot size: all of that test's paths are
      forbidden before it is reached. */
  lemma {:induction false} LotIncreaseIsNeverReported(ops: seq<Op>, reviewed: int)
    ensures IsDangerous(ops, reviewed) != Dangerous(LotIncreased)
  {
    hide Raised;
    assert LOT_PATHS <= FORBIDDEN;
    if ops != [] {
      RaisedNames(ops[0], SpreadLoosened);
      RaisedNames(ops[0], CapRelaxed);
      LotIncreaseIsNeverReported(ops[1..], reviewed);
    }
  }

  lemma RaisedNames(op: Op, why: Reason)
    ensures Raised(op, why).Dangerous? ==> Raised(op, why).why == why
  {}
}
