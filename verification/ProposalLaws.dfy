/** Which mistake moves which setting and by how much, and which ops the safety policy
    lets through, on raw reviews, numbers and paths. */
module ProposalLaws {
  import opened Numbers
  import opened ConfigProposal

  // ----- Settings -----------------------------------------------------------------

  /** The number configured at a path, or the default where there is none or it is 0. */
  function Setting(c: Json, path: Path, default: real): real {
    match Get(c, path)
    case Some(Num(x)) => if x == 0.0 then default else x
    case Some(Bool(b)) => if b then 1.0 else default
    case Some(Text(_, Some(x))) => if x == 0.0 then default else x
    case _ => default
  }

  lemma SettingIs(c: Json, path: Path, default: real)
    ensures NumberOr(c, path, default) == Setting(c, path, default)
  {}

  /** A value as the policy reads it: what is empty is 0. */
  function AsNumber(v: Json): Option<real> {
    match v
    case Null => Some(0.0)
    case Bool(b) => if b then Some(1.0) else Some(0.0)
    case Num(x) => Some(x)
    case Text(s, number) => if |s| == 0 then Some(0.0) else number
    case List(items) => if |items| == 0 then Some(0.0) else None
    case Obj(fields) => if |fields| == 0 then Some(0.0) else None
  }

  lemma NumberIs(v: Json)
    ensures OrZero(v) == AsNumber(v)
  {
    if v.Obj? && |v.fields| == 0 { assert v.fields == map[]; }
  }

  // ----- The safety policy ------------------------------------------------------------

  /** Both values are numbers and the new one is not above the old one. */
  predicate Falls(op: Op) {
    var new', before := AsNumber(op.value), AsNumber(op.prev);
    new'.Some? && before.Some? && new'.value <= before.value
  }

  predicate Readable(op: Op) { AsNumber(op.value).Some? && AsNumber(op.prev).Some? }

  lemma RaisedIff(op: Op, why: Reason)
    ensures Raised(op, why) == if !Readable(op) then Raises else if Falls(op) then Safe else Dangerous(why)
  {
    NumberIs(op.value);
    NumberIs(op.prev);
    hide OrZero, AsNumber;
  }

  /** An op is safe exactly where its path is not forbidden, it disables no guard, does
      not raise the spread limit, and raises the hourly cap only on thirty reviews. */
  lemma SafeIff(op: Op, reviewed: int)
    ensures JudgeOp(op, reviewed) == Safe
       <==> && op.path !in FORBIDDEN
            && (op.path in GUARD_DISABLE ==> op.value != Bool(false))
            && (op.path == ["filters", "spread_mult"] ==> Falls(op))
            && (op.path == ["fast_mode", "max_trades_per_symbol_per_hour"]
                ==> Falls(op) || (Readable(op) && reviewed >= 30))
  {
    assert Falls(op) ==> Readable(op);
    hide Raised, Falls, Readable, AsNumber;
    RaisedIff(op, SpreadLoosened);
    RaisedIff(op, CapRelaxed);
    PathsApart();
    assert LOT_PATHS <= FORBIDDEN;
    assert SPREAD_MULT !in GUARD_DISABLE && HOURLY_CAP !in GUARD_DISABLE by {
      assert SPREAD_MULT[1] == "spread_mult" && |HOURLY_CAP| == 2 && HOURLY_CAP[0] == "fast_mode";
    }
  }

  /** Why an op is turned down: the first rule it breaks.  Judging raises where a limit
      to compare is not a number. */
  lemma UnsafeBecause(op: Op, reviewed: int)
    ensures match JudgeOp(op, reviewed)
            case Safe => true
            case Raises => op.path in {["filters", "spread_mult"], ["fast_mode", "max_trades_per_symbol_per_hour"]}
                           && !Readable(op)
            case Dangerous(ForbiddenPath) => op.path in FORBIDDEN
            case Dangerous(GuardDisabled) => op.path in GUARD_DISABLE && op.value == Bool(false)
            case Dangerous(SpreadLoosened) => op.path == ["filters", "spread_mult"] && Readable(op) && !Falls(op)
            case Dangerous(CapRelaxed) => op.path == ["fast_mode", "max_trades_per_symbol_per_hour"]
                                          && Readable(op) && !Falls(op) && reviewed < 30
            case Dangerous(LotIncreased) => false
  {
    hide Raised, Falls, Readable, AsNumber;
    RaisedIff(op, SpreadLoosened);
    RaisedIff(op, CapRelaxed);
    assert LOT_PATHS <= FORBIDDEN;
  }

  /** A patch is judged by its first op that is not safe. */
  lemma {:induction false} FirstUnsafeDecides(ops: seq<Op>, reviewed: int, k: nat)
    requires k < |ops| && JudgeOp(ops[k], reviewed) != Safe
    requires forall i :: 0 <= i < k ==> JudgeOp(ops[i], reviewed) == Safe
    ensures IsDangerous(ops, reviewed) == JudgeOp(ops[k], reviewed)
  {
    hide JudgeOp;
    if k > 0 {
      assert ops[1..][k - 1] == ops[k] && forall i :: 0 <= i < k - 1 ==> ops[1..][i] == ops[i + 1];
      FirstUnsafeDecides(ops[1..], reviewed, k - 1);
    }
  }

  // ----- How far a setting may move -------------------------------------------------------

  /** The most a proposal may lower and raise each tunable setting. */
  predicate MovesWithin(path: Path, down: real, up: real) {
    || (path in {["trading", "sl_tp", "tp1_rr"], ["trading", "sl_tp", "sl_atr_mult"],
                 ["trading", "trailing", "activation_atr_mult"], ["trading", "break_even", "trigger_atr_mult"]}
        && down == 0.2 && up == 0.2)
    || (path == ["trading", "sl_tp", "tp2_rr"] && down == 0.3 && up == 0.3)
    || (path == ["signals", "min_confidence"] && down == 10.0 && up == 10.0)
    || (path == ["filters", "spread_mult"] && down == 0.5 && up == 0.2)
    || (path == ["fast_mode", "max_trades_per_symbol_per_hour"] && down == 4.0 && up == 2.0)
    || (path == ["trading", "strategy_entries", "entry_buffer_atr"] && down == 0.05 && up == 0.05)
    || (path == ["trading", "exits", "min_r_multiple_win"] && down == 0.0 && up == 0.1)
  }

  ghost predicate Tunable(path: Path) { exists down, up :: MovesWithin(path, down, up) }

  lemma BoundsAre(path: Path, down: real, up: real)
    requires MovesWithin(path, down, up)
    ensures Bounds(path) == (-down, up)
  {
    assert TP1_RR[2] == "tp1_rr" && SL_ATR[2] == "sl_atr_mult" && MIN_R_WIN[1] == "exits";
    assert |TP1_RR| == |SL_ATR| == |MIN_R_WIN| == 3 && |MIN_CONFIDENCE| == |SPREAD_MULT| == |HOURLY_CAP| == 2;
    assert MIN_CONFIDENCE[0] == "signals" && SPREAD_MULT[0] == "filters" && HOURLY_CAP[0] == "fast_mode";
  }

  lemma UntunableIsFixed(path: Path)
    requires !Tunable(path)
    ensures Bounds(path) == (0.0, 0.0)
  {
    if Bounds(path) != (0.0, 0.0) { assert MovesWithin(path, -Bounds(path).0, Bounds(path).1); }
  }

  /** A proposed change is cut to the setting's range, to four decimals; no other
      setting is changed at all, and the payoff ratchet is never lowered. */
  lemma ChangeIsBounded(path: Path, down: real, up: real, delta: real)
    requires MovesWithin(path, down, up) || (!Tunable(path) && down == up == 0.0)
    ensures ClampDelta(path, delta)
         == Round(if delta < -down then -down else if delta > up then up else delta, 10_000.0)
  {
    hide MovesWithin, Round;
    if Tunable(path) { BoundsAre(path, down, up); } else { UntunableIsFixed(path); }
    hide Bounds;
    assert down >= 0.0 && up >= 0.0 by { RangesAreNonnegative(path, down, up); }
  }

  lemma RangesAreNonnegative(path: Path, down: real, up: real)
    requires MovesWithin(path, down, up) || down == up == 0.0
    ensures down >= 0.0 && up >= 0.0
  {}

  // ----- Which mistake moves which setting --------------------------------------------------

  /** The reviews with a mistake, in order. */
  function Showing(rows: seq<Review>, m: Mistake): seq<Review> {
    if rows == [] then [] else (if m in rows[0].mistakes then [rows[0]] else []) + Showing(rows[1..], m)
  }

  lemma {:induction false} ShowingSnoc(rows: seq<Review>, r: Review, m: Mistake)
    ensures Showing(rows + [r], m) == Showing(rows, m) + if m in r.mistakes then [r] else []
  {
    if rows == [] {
      assert (rows + [r])[1..] == [];
    } else {
      ShowingSnoc(rows[1..], r, m);
      assert (rows + [r])[1..] == rows[1..] + [r];
    }
  }

  lemma {:induction false} WithIsShowing(rows: seq<Review>, m: Mistake)
    ensures With(rows, m) == Showing(rows, m)
  {
    if rows != [] {
      var n := |rows| - 1;
      WithIsShowing(rows[..n], m);
      ShowingSnoc(rows[..n], rows[n], m);
      assert rows == rows[..n] + [rows[n]];
    }
  }

  /** What an early exit left: the move after it, or the best excursion beyond what was
      realised, whichever is more; where either R is unknown that excursion counts as 0. */
  function LeftOnTable(r: Review): real {
    var beyond := match (r.mfeR, r.rMultiple) case (Some(best), Some(got)) => best - got case _ => 0.0;
    if r.postExit >= beyond then r.postExit else beyond
  }

  function LeftInAll(rows: seq<Review>): real {
    if rows == [] then 0.0 else LeftOnTable(rows[0]) + LeftInAll(rows[1..])
  }

  lemma {:induction false} LeftSnoc(rows: seq<Review>, r: Review)
    ensures LeftInAll(rows + [r]) == LeftInAll(rows) + LeftOnTable(r)
  {
    if rows == [] {
      assert (rows + [r])[1..] == [];
    } else {
      LeftSnoc(rows[1..], r);
      assert (rows + [r])[1..] == rows[1..] + [r];
    }
  }

  lemma {:induction false} TotalIsLeft(rows: seq<Review>)
    ensures TotalMissed(rows) == LeftInAll(rows)
  {
    if rows != [] {
      var n := |rows| - 1;
      TotalIsLeft(rows[..n]);
      LeftSnoc(rows[..n], rows[n]);
      assert rows == rows[..n] + [rows[n]];
    }
  }

  /** How much further TP1 is put for an average left on the table: 0.05 for every 0.3,
      at most 0.15. */
  function Further(average: real): real {
    if average < 0.45 then 0.05 else if average <= 0.75 then 0.1 else 0.15
  }

  lemma FurtherIs(average: real)
    requires average >= 0.3
    ensures ClampDelta(TP1_RR, Min(0.15, 0.05 * RoundInt(average / 0.3) as real)) == Further(average)
  {
    var x := average / 0.3;
    var k := RoundInt(x);
    assert x * 0.3 == average;
    NearestOrEven(x, 1);
    NearestOrEven(x, 2);
    assert k >= 1 && (k == 1 <==> average < 0.45) && (k <= 2 <==> average <= 0.75) by {
      RoundIntNear(x);
      hide RoundInt;
    }
    hide RoundInt;
    var step := Min(0.15, 0.05 * k as real);
    assert step == Further(average);
    assert MovesWithin(TP1_RR, 0.2, 0.2);
    hide MovesWithin;
    ChangeIsBounded(TP1_RR, 0.2, 0.2, step);
    hide ClampDelta, Round;
    assert OnGrid(step, 10_000.0);
    RoundFixesGrid(step, 10_000.0);
  }

  function When<T>(holds: bool, x: T): seq<T> { if holds then [x] else [] }

  /** A proposal to move one setting. */
  function Move(symbol: string, kind: Kind, path: Path, from: real, step: real, reviewed: nat): Proposal {
    Proposal(symbol, kind, [Op(path, Num(from), Num(Round(from + step, 10_000.0)))], reviewed)
  }

  /** Early exits, often enough and with enough left on the table, put TP1 further. */
  function FirstMove(symbol: string, rows: seq<Review>, c: Json, enough: int): seq<Proposal> {
    var early := Showing(rows, TpTooEarly);
    var average := if early == [] then 0.0 else LeftInAll(early) / |early| as real;
    When(|early| >= enough && average >= 0.3,
         Move(symbol, WidenTp, ["trading", "sl_tp", "tp1_rr"], Setting(c, ["trading", "sl_tp", "tp1_rr"], 1.5),
              Further(average), |rows|))
  }

  /** Tight stops widen the stop, entries against the timeframe ask for more
      confidence, overtrading lowers the hourly cap and spread spikes the spread limit,
      each by one step where seen often enough.  A stop that would pass 2 ATR stays,
      and so do the three settings after it. */
  function LaterMoves(symbol: string, rows: seq<Review>, c: Json, enough: int): seq<Proposal> {
    var n, tight := |rows|, |Showing(rows, SlTooTight)| >= enough;
    var sl := Setting(c, ["trading", "sl_tp", "sl_atr_mult"], 0.5);
    var confidence := Setting(c, ["signals", "min_confidence"], 50.0);
    var cap := Setting(c, ["fast_mode", "max_trades_per_symbol_per_hour"], 4.0);
    var spread := Setting(c, ["filters", "spread_mult"], 3.5);
    if tight && sl + 0.1 > 2.0 then [Proposal(symbol, SlCapped, [], n)]
    else
      When(tight, Move(symbol, WidenSl, ["trading", "sl_tp", "sl_atr_mult"], sl, 0.1, n))
      + When(|Showing(rows, WrongTimeframe)| >= enough,
             Move(symbol, RaiseConfidence, ["signals", "min_confidence"], confidence, 5.0, n))
      + When(|Showing(rows, Overtrading)| >= enough,
             Move(symbol, LowerHourlyCap, ["fast_mode", "max_trades_per_symbol_per_hour"], cap, -1.0, n))
      + When(|Showing(rows, SpreadSpike)| >= enough,
             Move(symbol, TightenSpread, ["filters", "spread_mult"], spread, -0.2, n))
  }

  function Moves(symbol: string, rows: seq<Review>, c: Json, enough: int): seq<Proposal> {
    FirstMove(symbol, rows, c, enough) + LaterMoves(symbol, rows, c, enough)
  }

  lemma StepIs(symbol: string, rows: seq<Review>, c: Json, enough: int, m: Mistake, kind: Kind, path: Path,
               default: real, step: real)
    requires ClampDelta(path, step) == step
    ensures Step(symbol, rows, c, enough, m, kind, path, default, step)
         == When(|Showing(rows, m)| >= enough, Move(symbol, kind, path, Setting(c, path, default), step, |rows|))
  {
    hide ClampDelta, Round, Setting, NumberOr, Showing, With;
    WithIsShowing(rows, m);
    SettingIs(c, path, default);
  }

  lemma LaterAre(symbol: string, rows: seq<Review>, c: Json, enough: int)
    ensures LaterProposals(symbol, rows, c, enough) == LaterMoves(symbol, rows, c, enough)
  {
    hide ClampDelta, Round, Setting, NumberOr, Showing, With, When, Step, Move;
    ClampedDeltas();
    WithIsShowing(rows, SlTooTight);
    SettingIs(c, SL_ATR, 0.5);
    StepIs(symbol, rows, c, enough, SlTooTight, WidenSl, SL_ATR, 0.5, 0.1);
    StepIs(symbol, rows, c, enough, WrongTimeframe, RaiseConfidence, MIN_CONFIDENCE, 50.0, 5.0);
    StepIs(symbol, rows, c, enough, Overtrading, LowerHourlyCap, HOURLY_CAP, 4.0, -1.0);
    StepIs(symbol, rows, c, enough, SpreadSpike, TightenSpread, SPREAD_MULT, 3.5, -0.2);
  }

  lemma TpIs(symbol: string, rows: seq<Review>, c: Json, enough: int)
    ensures TpProposals(symbol, rows, c, enough)
         == if enough <= 0 && Showing(rows, TpTooEarly) == [] then None else Some(FirstMove(symbol, rows, c, enough))
  {
    hide ClampDelta, Round, RoundInt, Setting, NumberOr, Showing, With, LeftInAll, TotalMissed, Further;
    WithIsShowing(rows, TpTooEarly);
    SettingIs(c, TP1_RR, 1.5);
    var early := Showing(rows, TpTooEarly);
    TotalIsLeft(early);
    if early != [] {
      var average := LeftInAll(early) / |early| as real;
      if average >= 0.3 { FurtherIs(average); }
    }
  }

  /** A symbol's proposals; mining raises exactly where no review is enough and none
      shows an early exit. */
  lemma MistakesMoveSettings(symbol: string, rows: seq<Review>, c: Json, enough: int)
    ensures ProposalsFor(symbol, rows, c, enough)
         == if enough <= 0 && Showing(rows, TpTooEarly) == [] then None else Some(Moves(symbol, rows, c, enough))
  {
    hide TpProposals, LaterProposals, Showing, FirstMove, LaterMoves;
    TpIs(symbol, rows, c, enough);
    LaterAre(symbol, rows, c, enough);
  }

  // ----- Symbols in order -----------------------------------------------------------------------

  /** The reviews of a symbol, in order. */
  function OfSymbol(rs: seq<Review>, symbol: string): seq<Review> {
    if rs == [] then [] else (if rs[0].symbol == symbol then [rs[0]] else []) + OfSymbol(rs[1..], symbol)
  }

  lemma {:induction false} OfSymbolSnoc(rs: seq<Review>, r: Review, symbol: string)
    ensures OfSymbol(rs + [r], symbol) == OfSymbol(rs, symbol) + if r.symbol == symbol then [r] else []
  {
    if rs == [] {
      assert (rs + [r])[1..] == [];
    } else {
      OfSymbolSnoc(rs[1..], r, symbol);
      assert (rs + [r])[1..] == rs[1..] + [r];
    }
  }

  lemma {:induction false} RowsAre(rs: seq<Review>, symbol: string)
    ensures RowsOf(rs, symbol) == OfSymbol(rs, symbol)
  {
    if rs != [] {
      var n := |rs| - 1;
      RowsAre(rs[..n], symbol);
      OfSymbolSnoc(rs[..n], rs[n], symbol);
      assert rs == rs[..n] + [rs[n]];
    }
  }

  predicate Reviewed(rs: seq<Review>, symbol: string) { exists i :: 0 <= i < |rs| && rs[i].symbol == symbol }

  /** s is reviewed before t. */
  predicate Earlier(rs: seq<Review>, s: string, t: string) {
    exists i :: 0 <= i < |rs| && rs[i].symbol == s && !Reviewed(rs[..i], t)
  }

  lemma ReviewedSnoc(rs: seq<Review>, s: string)
    requires rs != []
    ensures Reviewed(rs, s) <==> Reviewed(rs[..|rs| - 1], s) || rs[|rs| - 1].symbol == s
  {
    var n := |rs| - 1;
    if i :| 0 <= i < n && rs[..n][i].symbol == s { assert rs[i].symbol == s; }
    if i :| 0 <= i < |rs| && rs[i].symbol == s { assert i < n ==> rs[..n][i].symbol == s; }
  }

  lemma EarlierLasts(rs: seq<Review>, s: string, t: string)
    requires rs != [] && Earlier(rs[..|rs| - 1], s, t)
    ensures Earlier(rs, s, t)
  {
    var n := |rs| - 1;
    var i :| 0 <= i < n && rs[..n][i].symbol == s && !Reviewed(rs[..n][..i], t);
    assert rs[i].symbol == s && rs[..n][..i] == rs[..i];
  }

  lemma NewComesLater(rs: seq<Review>, s: string, t: string)
    requires rs != [] && Reviewed(rs[..|rs| - 1], s) && !Reviewed(rs[..|rs| - 1], t)
    ensures Earlier(rs, s, t)
  {
    var n := |rs| - 1;
    var i :| 0 <= i < n && rs[..n][i].symbol == s;
    assert forall j :: 0 <= j < i ==> rs[..i][j] == rs[..n][j];
    assert rs[i].symbol == s && !Reviewed(rs[..i], t);
  }

  predicate InOrder(rs: seq<Review>, symbols: seq<string>) {
    forall i, j :: 0 <= i < j < |symbols| ==> symbols[i] != symbols[j] && Earlier(rs, symbols[i], symbols[j])
  }

  /** Every symbol but "" is listed once, in the order of first review. */
  lemma {:induction false} SymbolsAre(rs: seq<Review>)
    ensures forall s :: s in SymbolsOf(rs) <==> s != "" && Reviewed(rs, s)
    ensures InOrder(rs, SymbolsOf(rs))
  {
    hide Reviewed, Earlier;
    if rs == [] {
      forall s ensures !Reviewed(rs, s) { NoneReviewed(s); }
    } else {
      var n := |rs| - 1;
      var before, symbols := SymbolsOf(rs[..n]), SymbolsOf(rs);
      SymbolsAre(rs[..n]);
      forall s ensures Reviewed(rs, s) <==> Reviewed(rs[..n], s) || rs[n].symbol == s { ReviewedSnoc(rs, s); }
      forall i, j | 0 <= i < j < |symbols| ensures symbols[i] != symbols[j] && Earlier(rs, symbols[i], symbols[j]) {
        assert symbols[i] == before[i] && before[i] in before;
        if j < |before| { EarlierLasts(rs, before[i], before[j]); } else { NewComesLater(rs, before[i], symbols[j]); }
      }
    }
  }

  lemma NoneReviewed(s: string)
    ensures !Reviewed([], s)
  {}

  function AllMoves(symbols: seq<string>, rs: seq<Review>, c: Json, enough: int): seq<Proposal> {
    if symbols == [] then []
    else Moves(symbols[0], OfSymbol(rs, symbols[0]), c, enough) + AllMoves(symbols[1..], rs, c, enough)
  }

  lemma {:induction false} AllMovesSnoc(symbols: seq<string>, s: string, rs: seq<Review>, c: Json, enough: int)
    ensures AllMoves(symbols + [s], rs, c, enough)
         == AllMoves(symbols, rs, c, enough) + Moves(s, OfSymbol(rs, s), c, enough)
  {
    hide Moves;
    if symbols == [] {
      assert (symbols + [s])[1..] == [];
    } else {
      AllMovesSnoc(symbols[1..], s, rs, c, enough);
      assert (symbols + [s])[1..] == symbols[1..] + [s];
    }
  }

  /** Mining lists each symbol's proposals, symbol after symbol; it raises exactly where
      no review is enough and some symbol shows no early exit. */
  lemma {:induction false} MiningIs(symbols: seq<string>, rs: seq<Review>, c: Json, enough: int)
    ensures ProposalsOver(symbols, rs, c, enough)
         == if enough <= 0 && exists i :: 0 <= i < |symbols| && Showing(OfSymbol(rs, symbols[i]), TpTooEarly) == []
            then None else Some(AllMoves(symbols, rs, c, enough))
  {
    hide Moves, ProposalsFor, Showing, OfSymbol, RowsOf;
    if symbols != [] {
      var n := |symbols| - 1;
      var before, s := symbols[..n], symbols[n];
      MiningIs(before, rs, c, enough);
      RowsAre(rs, s);
      MistakesMoveSettings(s, OfSymbol(rs, s), c, enough);
      AllMovesSnoc(before, s, rs, c, enough);
      assert symbols == before + [s];
    }
  }
}
